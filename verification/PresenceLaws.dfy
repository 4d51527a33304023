/** Who is connected, read off the history of one match's presence: every connection from its last sign of
    life, and what a failing store call undoes. */
module PresenceLaws {
  import opened Common
  import opened Presence

  /** The step's store call, if it makes one, succeeds. */
  predicate Stores(s: Step) {
    match s
    case Connect(_, _, stored) => stored
    case Disconnect(_, _, stored) => stored
    case Sweep(_, _, _, stored) => stored
    case _ => true
  }

  /** When the connection last gave a sign of life, unless it has gone since: by itself, with a restart, or
      in a sweep that found it silent for more than 45 seconds. */
  function LastSeen(steps: seq<Step>, k: Key): Option<int> {
    if steps == [] then None
    else
      var before := LastSeen(steps[..|steps| - 1], k);
      match steps[|steps| - 1]
      case Connect(key, now, _) => if key == k then Some(now) else before
      case Touch(key, now) => if key == k && before.Some? then Some(now) else before
      case Disconnect(key, _, _) => if key == k then None else before
      case Sweep(candidates, seen, _, _) => if k in candidates && before.Some? && seen - before.value > 45000 then None else before
      case End => before
      case Restart(_) => None
  }

  function SeenIn(w: World, k: Key): Option<int> {
    if k in w.connections then Some(w.connections[k]) else None
  }

  lemma SweepRemoves(w: World, candidates: set<Key>, seen: int, now: int, k: Key)
    ensures SeenIn(Swept(w, candidates, seen, now, true), k)
      == if k in candidates && k in w.connections && seen - w.connections[k] > 45000 then None else SeenIn(w, k)
  {
    hide PlayerOnline, GoneOffline, Farewells, Sorted;
    assert k in ExpiredKeys(w, candidates, seen) <==> k in candidates && k in w.connections && seen - w.connections[k] > 45000;
  }

  lemma StepIsSeen(w: World, s: Step, k: Key)
    requires Stores(s)
    ensures var before := SeenIn(w, k);
      SeenIn(Next(w, s), k) ==
        match s
        case Connect(key, now, _) => if key == k then Some(now) else before
        case Touch(key, now) => if key == k && before.Some? then Some(now) else before
        case Disconnect(key, _, _) => if key == k then None else before
        case Sweep(candidates, seen, _, _) => if k in candidates && before.Some? && seen - before.value > 45000 then None else before
        case End => before
        case Restart(_) => None
  {
    hide PlayerOnline, Swept;
    if s.Sweep? {
      SweepRemoves(w, s.candidates, s.seen, s.now, k);
    }
  }

  /** While the store works, exactly the connections that have been seen and have not gone are there, each
      with the time it was last seen. */
  lemma {:induction false} ConnectionsAreTheSeen(steps: seq<Step>, k: Key)
    requires forall i :: 0 <= i < |steps| ==> Stores(steps[i])
    ensures SeenIn(Run(NewMatch(), steps), k) == LastSeen(steps, k)
  {
    hide Next;
    if steps != [] {
      ConnectionsAreTheSeen(steps[..|steps| - 1], k);
      StepIsSeen(Run(NewMatch(), steps[..|steps| - 1]), steps[|steps| - 1], k);
    }
  }

  // ------------------------------------------------------------------- a failing store

  /** The same step with its store call succeeding. */
  function Storing(s: Step): Step {
    match s
    case Connect(k, now, _) => Connect(k, now, true)
    case Disconnect(k, now, _) => Disconnect(k, now, true)
    case Sweep(candidates, seen, now, _) => Sweep(candidates, seen, now, true)
    case _ => s
  }

  /** The step has to write the row: somebody's first connection comes, or the last one of all goes. */
  ghost predicate NeedsTheStore(w: World, s: Step) {
    match s
    case Connect(k, _, _) => forall other :: other in w.connections ==> other.user != k.user
    case Disconnect(k, _, _) => w.connections.Keys == {k}
    case Sweep(candidates, seen, _, _) =>
      w.connections.Keys != {} && forall k :: k in w.connections ==> k in candidates && seen - w.connections[k] > 45000
    case _ => false
  }

  lemma SweepKeepsSomebody(w: World, candidates: set<Key>, seen: int)
    ensures var expired := ExpiredKeys(w, candidates, seen);
      (expired != {} && w.connections - expired == map[]) <==>
        (w.connections.Keys != {} && forall k :: k in w.connections ==> k in candidates && seen - w.connections[k] > 45000)
  {
    var expired := ExpiredKeys(w, candidates, seen);
    if w.connections - expired == map[] {
      forall k | k in w.connections ensures k in expired {
        assert k !in (w.connections - expired).Keys;
      }
    }
    if w.connections.Keys != {} && forall k :: k in w.connections ==> k in candidates && seen - w.connections[k] > 45000 {
      var k :| k in w.connections.Keys;
      assert k in expired;
      assert (w.connections - expired).Keys == {};
    }
  }

  lemma OnlyOneThere(connections: map<Key, int>, k: Key)
    requires k in connections
    ensures connections - {k} == map[] <==> connections.Keys == {k}
  {
    var rest := connections - {k};
    assert rest.Keys == connections.Keys - {k};
    if rest == map[] {
      assert rest.Keys == {};
      assert connections.Keys == {k};
    }
    if connections.Keys == {k} {
      assert rest.Keys == {};
    }
  }

  /** A failing store call undoes the whole step, announcement included, exactly when the step needs it. */
  lemma FailureUndoesExactlyWhatNeedsTheStore(w: World, s: Step)
    requires !Stores(s)
    ensures Next(w, s) == if NeedsTheStore(w, s) then w else Next(w, Storing(s))
  {
    match s
    case Connect(k, now, _) => hide Swept;
    case Disconnect(k, now, _) =>
      if k in w.connections {
        OnlyOneThere(w.connections, k);
        if w.connections.Keys == {k} {
          assert !PlayerOnline(w.connections - {k}, k.user);
        }
      }
      hide PlayerOnline, Swept;
    case Sweep(candidates, seen, now, _) =>
      SweepKeepsSomebody(w, candidates, seen);
      hide ExpiredKeys, GoneOffline, Farewells, Sorted;
  }
}
