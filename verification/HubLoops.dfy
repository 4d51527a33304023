/** The hub's retry loops: a handshake and a requested snapshot are tried again while the snapshot
    read is too old when it is checked. Anything may happen between a read and its check, and
    between a check and the next read. */
module HubLoops {
  import opened Common
  import opened Hub
  import opened HubProofs

  /** What a snapshot can be too old for: the match's watermark, or one connection's queue. */
  datatype Target = Watermark | QueueOf(id: ConnectionId)

  predicate TooOld<E>(w: World<E>, target: Target, revision: nat) {
    match target
    case Watermark => w.room.Some? && revision < w.room.value.published
    case QueueOf(id) => Has(w, id) && revision < w.room.value.connections[id].revision
  }

  /** That is exactly when the checks of the three loops answer stale. */
  lemma StaleMeansTooOld<E>(w: World<E>, id: ConnectionId, revision: nat, history: seq<E>, known: set<UserId>)
    requires Has(w, id)
    ensures var room := w.room.value;
      && (MarkReady(room, id, revision, history, known).stale <==> TooOld(w, Watermark, revision))
      && (EnqueueState(room.connections[id], StateAt(revision, history), revision).0 == Stale <==> TooOld(w, QueueOf(id), revision))
      && (EnqueueErrorAndState(room.connections[id], revision, history).0 == Stale <==> TooOld(w, QueueOf(id), revision))
  {
    hide Advance, CatchUp;
  }

  /** One attempt after a read: the steps until its check, and those until the next read. */
  datatype Attempt<E> = Attempt(window: seq<Step<E>>, gap: seq<Step<E>>)

  function Checked<E>(w: World<E>, a: Attempt<E>, limit: nat): World<E> {
    Run(w, a.window, limit)
  }

  /** The world in which the read of attempt `k` happens; it shows everything committed there. */
  function ReadAt<E>(w: World<E>, attempts: seq<Attempt<E>>, k: nat, limit: nat): World<E>
    requires k <= |attempts|
  {
    if k == 0 then w
    else Run(Checked(ReadAt(w, attempts, k - 1, limit), attempts[k - 1], limit), attempts[k - 1].gap, limit)
  }

  predicate IsStale<E>(w: World<E>, attempts: seq<Attempt<E>>, k: nat, target: Target, limit: nat)
    requires k < |attempts|
  {
    var read := ReadAt(w, attempts, k, limit);
    TooOld(Checked(read, attempts[k], limit), target, |read.committed|)
  }

  lemma StepGrows<E>(w: World<E>, s: Step<E>, limit: nat)
    requires Enabled(w, s, limit) && |w.committed| <= limit
    ensures w.committed <= Next(w, s, limit).committed && |Next(w, s, limit).committed| <= limit
  {
    hide MarkReady, Published, EnqueueInitial, EnqueueState, EnqueueErrorAndState, Noted, FlushOne, InformedAll, Arrived, Raised, MarkedMore;
    if s.MarkMore? {
      MoreKeepsCommitted(w);
    }
  }

  lemma MoreKeepsCommitted<E>(w: World<E>)
    requires w.marking.Some? && Has(w, w.marking.value.id)
    ensures MarkedMore(w).committed == w.committed
  {
    hide FlushOne, EnqueueEvent, EnqueuePresence, Failed, Sorted;
  }

  lemma {:induction false} CommittedGrows<E>(w: World<E>, steps: seq<Step<E>>, limit: nat)
    requires |w.committed| <= limit
    ensures w.committed <= Run(w, steps, limit).committed && |Run(w, steps, limit).committed| <= limit
  {
    hide Next, Enabled;
    if steps != [] {
      CommittedGrows(w, steps[..|steps| - 1], limit);
      var before := Run(w, steps[..|steps| - 1], limit);
      if Enabled(before, steps[|steps| - 1], limit) {
        StepGrows(before, steps[|steps| - 1], limit);
      }
    }
  }

  lemma StaleIsBehind<E>(w: World<E>, target: Target, revision: nat)
    requires Sound(w) && TooOld(w, target, revision)
    ensures revision < |w.committed|
  {
    hide Read, QueueFits, InOrder, PendingFits;
  }

  /** One stale answer: the next read shows at least one event more. */
  lemma StaleReadAdvances<E>(w: World<E>, a: Attempt<E>, target: Target, limit: nat)
    requires Sound(w) && |w.committed| <= limit && TooOld(Checked(w, a, limit), target, |w.committed|)
    ensures var next := Run(Checked(w, a, limit), a.gap, limit);
      Sound(next) && |w.committed| < |next.committed| <= limit
  {
    hide Run, Sound, TooOld;
    var checked := Checked(w, a, limit);
    RunKeepsSound(w, a.window, limit);
    CommittedGrows(w, a.window, limit);
    StaleIsBehind(checked, target, |w.committed|);
    RunKeepsSound(checked, a.gap, limit);
    CommittedGrows(checked, a.gap, limit);
  }

  /** Stale answers run out: with events bounded by `limit`, at most `limit` reads in a row can be
      too old, one fewer than the loops allow. */
  lemma {:induction false} StaleAnswersRunOut<E>(w: World<E>, attempts: seq<Attempt<E>>, n: nat, target: Target, limit: nat)
    requires Sound(w) && |w.committed| <= limit && n <= |attempts|
    requires forall k :: 0 <= k < n ==> IsStale(w, attempts, k, target, limit)
    ensures Sound(ReadAt(w, attempts, n, limit))
    ensures |w.committed| + n <= |ReadAt(w, attempts, n, limit).committed| <= limit
  {
    hide Run, Sound, TooOld;
    if n > 0 {
      StaleAnswersRunOut(w, attempts, n - 1, target, limit);
      assert IsStale(w, attempts, n - 1, target, limit);
      StaleReadAdvances(ReadAt(w, attempts, n - 1, limit), attempts[n - 1], target, limit);
    }
  }

  /** The loop itself, run against the protocol: whatever happens in each of its attempts, it
      stops at the first current one and never exhausts them. */
  method RetryUntilCurrent<E>(start: World<E>, attempts: seq<Attempt<E>>, target: Target, limit: nat) returns (tries: nat, read: World<E>)
    requires Sound(start) && |start.committed| <= limit && |attempts| == limit + 1
    ensures tries <= limit && read == ReadAt(start, attempts, tries, limit)
    ensures !IsStale(start, attempts, tries, target, limit)
    ensures forall k :: 0 <= k < tries ==> IsStale(start, attempts, k, target, limit)
  {
    hide Run, Sound, TooOld;
    tries, read := 0, start;
    while tries <= limit
      invariant tries <= limit && read == ReadAt(start, attempts, tries, limit)
      invariant forall k :: 0 <= k < tries ==> IsStale(start, attempts, k, target, limit)
    {
      var checked := Run(read, attempts[tries].window, limit);
      if !TooOld(checked, target, |read.committed|) {
        return;
      }
      read := Run(checked, attempts[tries].gap, limit);
      tries := tries + 1;
      StaleAnswersRunOut(start, attempts, tries, target, limit);
    }
    assert false;
  }

  // --------------------------------------------------------------------- the bound is tight

  /** A commit published between each read and its check. */
  function Overtaken<E>(events: seq<E>, n: nat): seq<Attempt<E>>
    requires n <= |events|
  {
    if n == 0 then [] else Overtaken(events, n - 1) + [Attempt([Commit(events[n - 1]), Publish(n)], [])]
  }

  // A room that has published everything.
  predicate UpToDate<E>(w: World<E>, n: nat) {
    |w.committed| == n && w.marking.None? && w.room.Some? && w.room.value.published == n && w.room.value.pendingEvents == map[]
  }

  lemma OneMoreEvent<E>(w: World<E>, event: E, limit: nat)
    requires UpToDate(w, |w.committed|) && |w.committed| < limit
    ensures UpToDate(Run(w, [Commit(event), Publish(|w.committed| + 1)], limit), |w.committed| + 1)
  {
    hide DeliveredToAll;
    var n := |w.committed|;
    var steps := [Commit(event), Publish(n + 1)];
    assert steps[..1] == [Commit(event)] && steps[..1][..0] == [];
    RunNothing(w, limit);
    var committed := Run(w, steps[..1], limit);
    assert committed == w.(committed := w.committed + [event]);
    var room := w.room.value.(pendingEvents := map[n + 1 := event]);
    assert FlushOne(room).pendingEvents == map[];
    assert Flush(FlushOne(room)) == FlushOne(room);
    assert Published(w.room.value, n + 1, event, limit) == FlushOne(room);
  }

  /** As many stale answers in a row as there are events can happen. */
  lemma {:induction false} EveryReadOvertaken<E>(w: World<E>, events: seq<E>, n: nat, limit: nat)
    requires UpToDate(w, 0) && n <= |events| <= limit
    ensures var attempts := Overtaken(events, n);
      && |attempts| == n && UpToDate(ReadAt(w, attempts, n, limit), n)
      && forall k :: 0 <= k < n ==> IsStale(w, attempts, k, Watermark, limit)
  {
    hide Run, UpToDate;
    if n > 0 {
      EveryReadOvertaken(w, events, n - 1, limit);
      var front, attempts := Overtaken(events, n - 1), Overtaken(events, n);
      forall k | 0 <= k < n ensures ReadAt(w, attempts, k, limit) == ReadAt(w, front, k, limit) {
        SameReads(w, front, attempts, k, limit);
      }
      var read := ReadAt(w, front, n - 1, limit);
      UpToDateFacts(read, n - 1);
      OneMoreEvent(read, events[n - 1], limit);
      var checked := Checked(read, attempts[n - 1], limit);
      UpToDateFacts(checked, n);
      assert Run(checked, [], limit) == checked by {
        RunNothing(checked, limit);
      }
      forall k | 0 <= k < n ensures IsStale(w, attempts, k, Watermark, limit) {
        if k < n - 1 {
          assert IsStale(w, front, k, Watermark, limit);
        }
      }
    }
  }

  lemma UpToDateFacts<E>(w: World<E>, n: nat)
    requires UpToDate(w, n)
    ensures |w.committed| == n && w.room.Some? && w.room.value.published == n
  {
  }

  lemma RunNothing<E>(w: World<E>, limit: nat)
    ensures Run(w, [], limit) == w
  {
  }

  lemma {:induction false} SameReads<E>(w: World<E>, front: seq<Attempt<E>>, attempts: seq<Attempt<E>>, k: nat, limit: nat)
    requires k <= |front| && front <= attempts
    ensures ReadAt(w, attempts, k, limit) == ReadAt(w, front, k, limit)
  {
    if k > 0 {
      SameReads(w, front, attempts, k - 1, limit);
    }
  }
}
