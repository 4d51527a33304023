/** Presence operations as the code runs them: in sections under the presence mutex with a store call
    between them, by threads that hold the match's lock, each announcement reserving its place in
    the notification chain before the lock is given back. Read with the operation on its way
    undone, every run of these is a run of whole operations; and what observers have been told is
    a beginning of what was announced. */
module PresenceDelivery {
  import opened Common
  import P = Presence
  import L = PresenceLock

  // --------------------------------------------------------------- operations on their way

  /** What an operation has done to the connections before its store call. */
  datatype Change =
    | Inserted(key: P.Key)
    | Removed(key: P.Key, lastSeen: int)
    | Emptied(saved: map<P.Key, int>, seen: int)

  /** A thread in an operation: its store call is out, or was refused, or it still has to reserve
      the places of what it announced. */
  datatype Task = Storing(change: Change) | Refused(change: Change) | Announcing(left: nat)

  /** One match: the lock table of all matches, its notification chain, the threads in an operation
      on it, and its connections, announcements and row as they are at this moment. */
  datatype World = World(id: L.MatchId, lock: L.World, chain: L.Chain, tasks: map<L.ThreadId, Task>, live: P.World)

  datatype Step =
    | Lock(step: L.Step)
    | BeginConnect(thread: L.ThreadId, key: P.Key, now: int)
    | BeginDisconnect(thread: L.ThreadId, key: P.Key)
    | BeginSweep(thread: L.ThreadId, candidates: set<P.Key>, seen: int)
    | Store(thread: L.ThreadId, now: int, stored: bool)
    | Rollback(thread: L.ThreadId)
    | Reserve(thread: L.ThreadId)
    | Done(thread: L.ThreadId)
    | Touch(key: P.Key, now: int)
    | Notify(move: L.Move)
    | End
    | Restart(now: int)

  function Start(id: L.MatchId): World {
    World(id, L.World(map[], map[], map[]), L.Chain(None, [], []), map[], P.NewMatch())
  }

  predicate Holds(w: World, t: L.ThreadId) {
    t in w.lock.threads && w.lock.threads[t].Holding? && w.lock.threads[t].matchId == w.id
  }

  /** The match's lock is taken before an operation begins, and given back only after its end;
      activity is recorded, notifications proceed and the match may end at any time. */
  predicate Enabled(w: World, s: Step) {
    match s
    case Lock(step) => L.Enabled(w.lock, step) && (step.Return? ==> step.thread !in w.tasks)
    case BeginConnect(t, _, _) => Holds(w, t) && t !in w.tasks
    case BeginDisconnect(t, _) => Holds(w, t) && t !in w.tasks
    case BeginSweep(t, _, _) => Holds(w, t) && t !in w.tasks
    case Store(t, _, _) => t in w.tasks && w.tasks[t].Storing?
    case Rollback(t) => t in w.tasks && w.tasks[t].Refused?
    case Reserve(t) => t in w.tasks && w.tasks[t].Announcing? && w.tasks[t].left > 0 && L.CanMove(w.chain, L.Reserve)
    case Done(t) => t in w.tasks && w.tasks[t] == Announcing(0)
    case Touch(_, _) => true
    case Notify(move) => !move.Reserve? && L.CanMove(w.chain, move)
    case End => true
    case Restart(_) => true
  }

  function Undone(connections: map<P.Key, int>, change: Change): map<P.Key, int> {
    match change
    case Inserted(k) => connections - {k}
    case Removed(k, lastSeen) => connections[k := lastSeen]
    case Emptied(saved, _) => connections + saved
  }

  // The store committed: the row, the announcements, and how many places they need.
  function Committed(w: World, t: L.ThreadId, change: Change, now: int): World {
    match change
    case Inserted(k) =>
      w.(live := P.StoreOnline(w.live).(announced := w.live.announced + [P.Boundary(k.user, true)], joined := true),
         tasks := w.tasks[t := Announcing(1)])
    case Removed(k, _) =>
      w.(live := P.StoreOffline(w.live, now).(announced := w.live.announced + [P.Boundary(k.user, false)]),
         tasks := w.tasks[t := Announcing(1)])
    case Emptied(saved, _) =>
      var users := Sorted(P.GoneOffline(saved.Keys, map[]));
      w.(live := P.StoreOffline(w.live, now).(announced := w.live.announced + P.Farewells(users)),
         tasks := w.tasks[t := Announcing(|users|)])
  }

  function Disconnecting(w: World, t: L.ThreadId, k: P.Key): World {
    if k !in w.live.connections then w
    else
      var rest := w.live.connections - {k};
      if P.PlayerOnline(rest, k.user) then w.(live := w.live.(connections := rest))
      else if rest != map[] then
        w.(live := w.live.(connections := rest, announced := w.live.announced + [P.Boundary(k.user, false)]), tasks := w.tasks[t := Announcing(1)])
      else w.(live := w.live.(connections := rest), tasks := w.tasks[t := Storing(Removed(k, w.live.connections[k]))])
  }

  function Sweeping(w: World, t: L.ThreadId, candidates: set<P.Key>, seen: int): World {
    var expired := P.ExpiredKeys(w.live, candidates, seen);
    var rest := w.live.connections - expired;
    if expired == {} then w
    else if rest != map[] then
      var users := Sorted(P.GoneOffline(expired, rest));
      w.(live := w.live.(connections := rest, announced := w.live.announced + P.Farewells(users)), tasks := w.tasks[t := Announcing(|users|)])
    else
      var saved := map k | k in w.live.connections && k in expired :: w.live.connections[k];
      w.(live := w.live.(connections := rest), tasks := w.tasks[t := Storing(Emptied(saved, seen))])
  }

  function Connecting(w: World, t: L.ThreadId, k: P.Key, now: int): World {
    var inserted := w.(live := w.live.(connections := w.live.connections[k := now]));
    if k in w.live.connections || P.PlayerOnline(w.live.connections, k.user) then inserted
    else inserted.(tasks := w.tasks[t := Storing(Inserted(k))])
  }

  function Next(w: World, s: Step): World
    requires Enabled(w, s)
  {
    match s
    case Lock(step) => w.(lock := L.Next(w.lock, step))
    case BeginConnect(t, k, now) => Connecting(w, t, k, now)
    case BeginDisconnect(t, k) => Disconnecting(w, t, k)
    case BeginSweep(t, candidates, seen) => Sweeping(w, t, candidates, seen)
    case Store(t, now, stored) =>
      if stored then Committed(w, t, w.tasks[t].change, now) else w.(tasks := w.tasks[t := Refused(w.tasks[t].change)])
    case Rollback(t) =>
      w.(live := w.live.(connections := Undone(w.live.connections, w.tasks[t].change)), tasks := w.tasks - {t})
    case Reserve(t) => w.(chain := L.Moved(w.chain, L.Reserve), tasks := w.tasks[t := Announcing(w.tasks[t].left - 1)])
    case Done(t) => w.(tasks := w.tasks - {t})
    case Touch(k, now) => w.(live := P.Touched(w.live, k, now))
    case Notify(move) => w.(chain := L.Moved(w.chain, move))
    case End => w.(live := P.Ended(w.live))
    case Restart(now) => Start(w.id).(live := P.Restarted(w.live, now))
  }

  function Run(w: World, steps: seq<Step>): World {
    if steps == [] then w
    else
      var before := Run(w, steps[..|steps| - 1]);
      if Enabled(before, steps[|steps| - 1]) then Next(before, steps[|steps| - 1]) else before
  }

  // ----------------------------------------------------------------------------- invariants

  ghost predicate ChangeFits(connections: map<P.Key, int>, change: Change) {
    match change
    case Inserted(k) => k in connections && !P.PlayerOnline(connections - {k}, k.user)
    case Removed(_, _) => connections == map[]
    case Emptied(saved, seen) =>
      connections == map[] && saved != map[] && forall k :: k in saved ==> seen - saved[k] > P.CONNECTION_TIMEOUT
  }

  ghost predicate TaskFits(w: World, t: L.ThreadId)
    requires t in w.tasks
  {
    Holds(w, t) && (!w.tasks[t].Announcing? ==> ChangeFits(w.live.connections, w.tasks[t].change))
  }

  /** The one operation on its way, if there is one. */
  ghost function Current(w: World): Option<Task> {
    OnlyOf(w.tasks)
  }

  ghost function OnlyOf(tasks: map<L.ThreadId, Task>): Option<Task> {
    if tasks == map[] then None else var t :| t in tasks; Some(tasks[t])
  }

  ghost function Owing(w: World): nat {
    match Current(w)
    case Some(Announcing(n)) => n
    case _ => 0
  }

  /** The match as it was before the operation on its way, whose store call has not committed. */
  ghost function Settled(w: World): P.World {
    match Current(w)
    case Some(Storing(change)) => w.live.(connections := Undone(w.live.connections, change))
    case Some(Refused(change)) => w.live.(connections := Undone(w.live.connections, change))
    case _ => w.live
  }

  ghost predicate Sound(w: World) {
    && L.Sound(w.lock) && L.Ordered(w.chain)
    && (forall t :: t in w.tasks ==> TaskFits(w, t))
    && |w.live.announced| == |w.chain.stages| + Owing(w)
  }

  /** The lock lets one operation on the match be on its way at most. */
  lemma OneAtATime(w: World, t: L.ThreadId)
    requires L.Sound(w.lock) && (forall u :: u in w.tasks ==> Holds(w, u)) && (t in w.tasks || Holds(w, t))
    ensures w.tasks == map[] || w.tasks.Keys == {t}
    ensures t in w.tasks ==> w.tasks == map[t := w.tasks[t]] && Current(w) == Some(w.tasks[t])
  {
    forall u | u in w.tasks ensures u == t {
      L.OneHolder(w.lock, t, u);
    }
    hide L.Sound;
    if t in w.tasks {
      assert w.tasks.Keys == {t};
    } else {
      assert w.tasks.Keys == {};
    }
  }

  // ------------------------------------------------------------------ one step, what it means

  /** The whole operation that a step completes, if it completes one. */
  ghost function Meaning(w: World, s: Step): Option<P.Step>
    requires Enabled(w, s)
  {
    var live := w.live.connections;
    match s
    case BeginConnect(_, k, now) => if k in live || P.PlayerOnline(live, k.user) then Some(P.Connect(k, now, true)) else None
    case BeginDisconnect(_, k) => if k in live && live - {k} != map[] then Some(P.Disconnect(k, 0, true)) else None
    case BeginSweep(_, candidates, seen) =>
      var expired := P.ExpiredKeys(w.live, candidates, seen);
      if expired != {} && live - expired != map[] then Some(P.Sweep(candidates, seen, 0, true)) else None
    case Store(t, now, true) =>
      (match w.tasks[t].change
       case Inserted(k) => Some(P.Connect(k, if k in live then live[k] else now, true))
       case Removed(k, _) => Some(P.Disconnect(k, now, true))
       case Emptied(saved, seen) => Some(P.Sweep(saved.Keys, seen, now, true)))
    case Touch(k, now) =>
      var unsettled := match Current(w)
        case Some(Storing(Inserted(key))) => key == k
        case Some(Refused(Inserted(key))) => key == k
        case _ => false;
      if k in live && !unsettled then Some(P.Touch(k, now)) else None
    case End => Some(P.End)
    case Restart(now) => Some(P.Restart(now))
    case _ => None
  }

  function Applied(w: P.World, s: Option<P.Step>): P.World {
    match s
    case None => w
    case Some(step) => P.Next(w, step)
  }

  lemma NothingOnItsWay(w: World)
    requires w.tasks == map[]
    ensures Current(w) == None && Settled(w) == w.live && Owing(w) == 0
  {
  }

  lemma OnItsWay(w: World, t: L.ThreadId, task: Task)
    requires w.tasks == map[t := task]
    ensures Current(w) == Some(task)
    ensures Settled(w) == if task.Announcing? then w.live else w.live.(connections := Undone(w.live.connections, task.change))
    ensures Owing(w) == if task.Announcing? then task.left else 0
  {
    assert t in w.tasks && forall u :: u in w.tasks ==> u == t;
  }

  // The three clauses about one thread's operation.
  lemma SoundWith(w: World, t: L.ThreadId, task: Task)
    requires L.Sound(w.lock) && L.Ordered(w.chain) && w.tasks == map[t := task] && Holds(w, t)
    requires !task.Announcing? ==> ChangeFits(w.live.connections, task.change)
    requires |w.live.announced| == |w.chain.stages| + if task.Announcing? then task.left else 0
    ensures Sound(w)
  {
    hide L.Sound, L.Ordered, ChangeFits;
    OnItsWay(w, t, task);
    hide Owing, Current;
  }

  lemma SoundWithNone(w: World)
    requires L.Sound(w.lock) && L.Ordered(w.chain) && w.tasks == map[] && |w.live.announced| == |w.chain.stages|
    ensures Sound(w)
  {
    hide L.Sound, L.Ordered;
    NothingOnItsWay(w);
    hide Owing, Current;
  }

  lemma Parts(w: World, t: L.ThreadId)
    requires Sound(w) && (t in w.tasks || Holds(w, t))
    ensures L.Sound(w.lock) && L.Ordered(w.chain) && |w.live.announced| == |w.chain.stages| + Owing(w)
    ensures t in w.tasks ==> w.tasks == map[t := w.tasks[t]] && TaskFits(w, t)
    ensures t !in w.tasks ==> w.tasks == map[]
  {
    hide L.Sound, L.Ordered, Owing, Current, ChangeFits;
    OneAtATime(w, t);
  }

  lemma ConnectRefines(w: World, t: L.ThreadId, k: P.Key, now: int)
    requires Sound(w) && Enabled(w, BeginConnect(t, k, now))
    ensures var after := Next(w, BeginConnect(t, k, now));
      Sound(after) && Settled(after) == Applied(Settled(w), Meaning(w, BeginConnect(t, k, now)))
  {
    hide L.Sound, L.Ordered, Sound, Owing, Current, Settled, P.PlayerOnline;
    Parts(w, t);
    NothingOnItsWay(w);
    var after := Next(w, BeginConnect(t, k, now));
    if after.tasks == map[] {
      SoundWithNone(after);
      NothingOnItsWay(after);
    } else {
      assert after.live.connections - {k} == w.live.connections;
      SoundWith(after, t, Storing(Inserted(k)));
      OnItsWay(after, t, Storing(Inserted(k)));
    }
  }

  lemma DisconnectRefines(w: World, t: L.ThreadId, k: P.Key)
    requires Sound(w) && Enabled(w, BeginDisconnect(t, k))
    ensures var after := Next(w, BeginDisconnect(t, k));
      Sound(after) && Settled(after) == Applied(Settled(w), Meaning(w, BeginDisconnect(t, k)))
  {
    hide L.Sound, L.Ordered, Sound, Owing, Current, Settled;
    Parts(w, t);
    NothingOnItsWay(w);
    var after := Next(w, BeginDisconnect(t, k));
    var rest := w.live.connections - {k};
    if P.PlayerOnline(rest, k.user) {
      assert rest != map[];
    }
    hide P.PlayerOnline;
    if after.tasks == map[] {
      SoundWithNone(after);
      NothingOnItsWay(after);
    } else {
      SoundWith(after, t, after.tasks[t]);
      OnItsWay(after, t, after.tasks[t]);
      if rest == map[] {
        assert w.live.connections.Keys == {k} by {
          forall x | x in w.live.connections ensures x == k {
            assert x != k ==> x in rest;
          }
        }
        assert map[][k := w.live.connections[k]] == w.live.connections;
      }
    }
  }

  lemma SweepRefines(w: World, t: L.ThreadId, candidates: set<P.Key>, seen: int)
    requires Sound(w) && Enabled(w, BeginSweep(t, candidates, seen))
    ensures var after := Next(w, BeginSweep(t, candidates, seen));
      Sound(after) && Settled(after) == Applied(Settled(w), Meaning(w, BeginSweep(t, candidates, seen)))
  {
    hide L.Sound, L.Ordered, Sound, Owing, Current, Settled, P.PlayerOnline, P.GoneOffline, P.Farewells, Sorted;
    Parts(w, t);
    NothingOnItsWay(w);
    var after := Next(w, BeginSweep(t, candidates, seen));
    var expired := P.ExpiredKeys(w.live, candidates, seen);
    if after.tasks == map[] {
      SoundWithNone(after);
      NothingOnItsWay(after);
    } else {
      if w.live.connections - expired == map[] {
        var saved := after.tasks[t].change.saved;
        AllExpired(w.live, candidates, seen);
        assert saved == w.live.connections && map[] + saved == saved;
      } else {
        SweptCount(w.live, expired, w.live.connections - expired);
      }
      SoundWith(after, t, after.tasks[t]);
      OnItsWay(after, t, after.tasks[t]);
    }
  }

  lemma SweptCount(live: P.World, expired: set<P.Key>, rest: map<P.Key, int>)
    ensures |live.announced + P.Farewells(Sorted(P.GoneOffline(expired, rest)))| == |live.announced| + |Sorted(P.GoneOffline(expired, rest))|
  {
  }

  lemma AllExpired(live: P.World, candidates: set<P.Key>, seen: int)
    requires live.connections - P.ExpiredKeys(live, candidates, seen) == map[]
    ensures forall k :: k in live.connections ==> k in P.ExpiredKeys(live, candidates, seen) && seen - live.connections[k] > P.CONNECTION_TIMEOUT
    ensures P.ExpiredKeys(live, candidates, seen) != {} ==> live.connections != map[]
  {
    var expired := P.ExpiredKeys(live, candidates, seen);
    forall k | k in live.connections ensures k in expired {
      assert k !in expired ==> k in live.connections - expired;
    }
  }

  lemma CommitRefines(w: World, t: L.ThreadId, now: int)
    requires Sound(w) && Enabled(w, Store(t, now, true))
    ensures var after := Next(w, Store(t, now, true));
      Sound(after) && Settled(after) == Applied(Settled(w), Meaning(w, Store(t, now, true)))
  {
    hide L.Sound, L.Ordered, Sound, Owing, Current, Settled, P.Farewells, Sorted;
    Parts(w, t);
    OnItsWay(w, t, w.tasks[t]);
    var after := Next(w, Store(t, now, true));
    match w.tasks[t].change {
      case Inserted(k) =>
        assert (w.live.connections - {k})[k := w.live.connections[k]] == w.live.connections;
      case Removed(k, lastSeen) =>
        assert map[][k := lastSeen] - {k} == map[];
      case Emptied(saved, seen) =>
        SavedAreExpired(Settled(w), saved, seen);
        SweptCount(w.live, saved.Keys, map[]);
        hide P.PlayerOnline, P.GoneOffline, P.ExpiredKeys;
    }
    SoundWith(after, t, after.tasks[t]);
    OnItsWay(after, t, after.tasks[t]);
  }

  lemma SavedAreExpired(settled: P.World, saved: map<P.Key, int>, seen: int)
    requires settled.connections == map[] + saved && saved != map[] && forall k :: k in saved ==> seen - saved[k] > P.CONNECTION_TIMEOUT
    ensures P.ExpiredKeys(settled, saved.Keys, seen) == saved.Keys && saved.Keys != {} && settled.connections - saved.Keys == map[]
  {
    assert map[] + saved == saved;
    var k :| k in saved;
    assert k in saved.Keys;
  }
  lemma RefusalRefines(w: World, t: L.ThreadId, now: int)
    requires Sound(w) && Enabled(w, Store(t, now, false))
    ensures var after := Next(w, Store(t, now, false)); Sound(after) && Settled(after) == Settled(w)
  {
    hide L.Sound, L.Ordered, Sound, Owing, Current, Settled, ChangeFits, Undone;
    Parts(w, t);
    var after := Next(w, Store(t, now, false));
    OnItsWay(w, t, w.tasks[t]);
    SoundWith(after, t, after.tasks[t]);
    OnItsWay(after, t, after.tasks[t]);
  }

  lemma RollbackRefines(w: World, t: L.ThreadId)
    requires Sound(w) && Enabled(w, Rollback(t))
    ensures var after := Next(w, Rollback(t)); Sound(after) && Settled(after) == Settled(w)
  {
    hide L.Sound, L.Ordered, Sound, Owing, Current, Settled, ChangeFits, Undone;
    Parts(w, t);
    var after := Next(w, Rollback(t));
    OnItsWay(w, t, w.tasks[t]);
    SoundWithNone(after);
    NothingOnItsWay(after);
  }

  lemma ReserveRefines(w: World, t: L.ThreadId)
    requires Sound(w) && Enabled(w, Reserve(t))
    ensures var after := Next(w, Reserve(t)); Sound(after) && Settled(after) == Settled(w)
  {
    hide L.Sound, L.Ordered, Sound, Owing, Current, Settled;
    Parts(w, t);
    var after := Next(w, Reserve(t));
    OnItsWay(w, t, w.tasks[t]);
    L.MoveKeepsOrder(w.chain, L.Reserve);
    SoundWith(after, t, after.tasks[t]);
    OnItsWay(after, t, after.tasks[t]);
  }

  lemma DoneRefines(w: World, t: L.ThreadId)
    requires Sound(w) && Enabled(w, Done(t))
    ensures var after := Next(w, Done(t)); Sound(after) && Settled(after) == Settled(w)
  {
    hide L.Sound, L.Ordered, Sound, Owing, Current, Settled;
    Parts(w, t);
    var after := Next(w, Done(t));
    OnItsWay(w, t, w.tasks[t]);
    SoundWithNone(after);
    NothingOnItsWay(after);
  }

  /** A thread in an operation keeps the lock, whatever other threads do with it. */
  lemma LockRefines(w: World, step: L.Step)
    requires Sound(w) && Enabled(w, Lock(step))
    ensures var after := Next(w, Lock(step)); Sound(after) && Settled(after) == Settled(w)
  {
    hide L.Sound, L.Ordered, L.Next, L.Enabled, Current, Owing, TaskFits, Undone;
    var after := Next(w, Lock(step));
    L.StepKeepsSound(w.lock, step);
    SameTasks(w, after);
    forall t | t in w.tasks ensures TaskFits(after, t) {
      assert TaskFits(w, t);
      TaskStays(w, step, t);
    }
  }

  lemma TaskStays(w: World, step: L.Step, t: L.ThreadId)
    requires Enabled(w, Lock(step)) && t in w.tasks && TaskFits(w, t)
    ensures TaskFits(Next(w, Lock(step)), t)
  {
    hide L.Next, L.Enabled, ChangeFits;
    HolderStays(w.lock, step, t);
  }

  lemma HolderStays(lock: L.World, step: L.Step, t: L.ThreadId)
    requires L.Enabled(lock, step) && t in lock.threads && lock.threads[t].Holding? && (step.Return? ==> step.thread != t)
    ensures t in L.Next(lock, step).threads && L.Next(lock, step).threads[t] == lock.threads[t]
  {
  }

  lemma SameTasks(w: World, after: World)
    requires after.tasks == w.tasks
    ensures Current(after) == Current(w) && Owing(after) == Owing(w)
  {
  }

  lemma TouchRefines(w: World, k: P.Key, now: int)
    requires Sound(w)
    ensures var after := Next(w, Touch(k, now));
      Sound(after) && Settled(after) == Applied(Settled(w), Meaning(w, Touch(k, now)))
  {
    hide L.Sound, L.Ordered, Current, Owing;
    var after := Next(w, Touch(k, now));
    SameTasks(w, after);
    forall t | t in w.tasks ensures TaskFits(after, t) {
      assert TaskFits(w, t);
      if !w.tasks[t].Announcing? {
        TouchKeepsChange(w.live, w.tasks[t].change, k, now);
      }
      hide ChangeFits;
    }
    if Current(w).Some? && !Current(w).value.Announcing? {
      CurrentFits(w);
      TouchKeepsChange(w.live, Current(w).value.change, k, now);
    }
    hide TaskFits, ChangeFits, P.PlayerOnline;
  }

  lemma CurrentFits(w: World)
    requires (forall t :: t in w.tasks ==> TaskFits(w, t)) && Current(w).Some? && !Current(w).value.Announcing?
    ensures ChangeFits(w.live.connections, Current(w).value.change)
  {
    var t :| t in w.tasks && Current(w) == Some(w.tasks[t]);
    assert TaskFits(w, t);
    hide ChangeFits;
  }

  /** Recording activity commutes with undoing the operation on its way. */
  lemma TouchKeepsChange(live: P.World, change: Change, k: P.Key, now: int)
    requires ChangeFits(live.connections, change)
    ensures var after := P.Touched(live, k, now).connections;
      && ChangeFits(after, change)
      && Undone(after, change) ==
           if k in live.connections && change != Inserted(k) then Undone(live.connections, change)[k := now] else Undone(live.connections, change)
    ensures k in live.connections && change != Inserted(k) ==> k in Undone(live.connections, change)
  {
    var after := P.Touched(live, k, now).connections;
    if change.Inserted? && k in live.connections {
      SameKeysSameOnline(live.connections - {change.key}, after - {change.key}, change.key.user);
      if k != change.key {
        assert after - {change.key} == (live.connections - {change.key})[k := now];
      } else {
        assert after - {k} == live.connections - {k};
      }
    }
    hide P.PlayerOnline;
  }

  lemma SameKeysSameOnline(a: map<P.Key, int>, b: map<P.Key, int>, user: UserId)
    requires a.Keys == b.Keys
    ensures P.PlayerOnline(a, user) == P.PlayerOnline(b, user)
  {
    if P.PlayerOnline(a, user) {
      var k :| k in a && k.user == user;
      assert k in b.Keys;
    }
    if P.PlayerOnline(b, user) {
      var k :| k in b && k.user == user;
      assert k in a.Keys;
    }
  }

  lemma NotifyRefines(w: World, move: L.Move)
    requires Sound(w) && Enabled(w, Notify(move))
    ensures var after := Next(w, Notify(move)); Sound(after) && Settled(after) == Settled(w)
  {
    L.MoveKeepsOrder(w.chain, move);
    var after := Next(w, Notify(move));
    SameTasks(w, after);
    forall t | t in w.tasks ensures TaskFits(after, t) {
      assert TaskFits(w, t);
    }
    hide L.Sound, L.Ordered, Current, Owing, TaskFits, ChangeFits, Undone;
  }

  lemma EndRefines(w: World)
    requires Sound(w)
    ensures var after := Next(w, End); Sound(after) && Settled(after) == P.Ended(Settled(w))
  {
    var after := Next(w, End);
    SameTasks(w, after);
    forall t | t in w.tasks ensures TaskFits(after, t) {
      assert TaskFits(w, t);
    }
    hide L.Sound, L.Ordered, Current, Owing, TaskFits, ChangeFits, Undone;
  }

  lemma RestartRefines(w: World, now: int)
    ensures var after := Next(w, Restart(now)); Sound(after) && Settled(after) == P.Restarted(Settled(w), now)
  {
    var after := Next(w, Restart(now));
    EmptyLockIsSound();
    EmptyChainIsOrdered();
    SoundWithNone(after);
    NothingOnItsWay(after);
    hide L.Sound, L.Ordered, Sound, Current, Owing, Undone;
  }

  lemma EmptyLockIsSound()
    ensures L.Sound(L.World(map[], map[], map[]))
  {
  }

  lemma EmptyChainIsOrdered()
    ensures L.Ordered(L.Chain(None, [], []))
  {
  }

  /** Every step keeps the invariant, and completes exactly one whole operation or none. */
  lemma StepRefines(w: World, s: Step)
    requires Sound(w) && Enabled(w, s)
    ensures Sound(Next(w, s)) && Settled(Next(w, s)) == Applied(Settled(w), Meaning(w, s))
  {
    hide Sound, Settled, Next, Enabled;
    match s
    case Lock(step) => LockRefines(w, step);
    case BeginConnect(t, k, now) => ConnectRefines(w, t, k, now);
    case BeginDisconnect(t, k) => DisconnectRefines(w, t, k);
    case BeginSweep(t, candidates, seen) => SweepRefines(w, t, candidates, seen);
    case Store(t, now, stored) =>
      if stored {
        CommitRefines(w, t, now);
      } else {
        RefusalRefines(w, t, now);
      }
    case Rollback(t) => RollbackRefines(w, t);
    case Reserve(t) => ReserveRefines(w, t);
    case Done(t) => DoneRefines(w, t);
    case Touch(k, now) => TouchRefines(w, k, now);
    case Notify(move) => NotifyRefines(w, move);
    case End => EndRefines(w);
    case Restart(now) => RestartRefines(w, now);
  }

  // ------------------------------------------------------------------------------ whole runs

  /** Presence under its locks is presence in whole operations: whatever the threads do, the match
      with the operation on its way undone is where some run of whole operations leads. */
  lemma {:induction false} RunRefines(id: L.MatchId, steps: seq<Step>) returns (whole: seq<P.Step>)
    ensures var w := Run(Start(id), steps); Sound(w) && Settled(w) == P.Run(P.NewMatch(), whole)
  {
    hide Sound, Settled, Next, Enabled, Start, P.Next;
    if steps == [] {
      StartIsSound(id);
      whole := [];
    } else {
      var before, last := Run(Start(id), steps[..|steps| - 1]), steps[|steps| - 1];
      whole := RunRefines(id, steps[..|steps| - 1]);
      if Enabled(before, last) {
        StepRefines(before, last);
        if Meaning(before, last).Some? {
          var step := Meaning(before, last).value;
          assert (whole + [step])[..|whole|] == whole;
          whole := whole + [step];
        }
      }
    }
  }

  lemma StartIsSound(id: L.MatchId)
    ensures Sound(Start(id)) && Settled(Start(id)) == P.NewMatch()
  {
    EmptyLockIsSound();
    EmptyChainIsOrdered();
    SoundWithNone(Start(id));
    NothingOnItsWay(Start(id));
    hide L.Sound, L.Ordered, Sound, Settled, Owing, Current;
  }

  /** What has been delivered so far: the announcements whose notifications are done. */
  function Delivered(announced: seq<P.Boundary>, stages: seq<L.Stage>): seq<P.Boundary>
    requires |announced| == |stages|
  {
    if stages == [] then []
    else
      var n := |stages| - 1;
      Delivered(announced[..n], stages[..n]) + (if stages[n] == L.Done then [announced[n]] else [])
  }

  lemma {:induction false} DeliveredUpTo(announced: seq<P.Boundary>, stages: seq<L.Stage>)
    requires |announced| == |stages|
    requires forall i, j :: 0 <= i < j < |stages| && stages[j] == L.Done ==> stages[i] == L.Done
    ensures Delivered(announced, stages) <= announced
    ensures stages != [] && stages[|stages| - 1] == L.Done ==> Delivered(announced, stages) == announced
  {
    if stages != [] {
      var n := |stages| - 1;
      DeliveredUpTo(announced[..n], stages[..n]);
      assert announced == announced[..n] + [announced[n]];
    }
  }

  lemma {:induction false} BeginningAlternates(announced: seq<P.Boundary>, n: nat)
    requires P.Alternates(announced) && n <= |announced|
    ensures P.Alternates(announced[..n])
  {
    if n == |announced| {
      assert announced[..n] == announced;
    } else {
      BeginningAlternates(announced[..|announced| - 1], n);
      assert announced[..|announced| - 1][..n] == announced[..n];
    }
  }

  /** Over every run of operations under their locks: each player's announcements alternate and
      start with online; observers have been told a beginning of them, in order; and whenever no
      operation is on its way, the last announcement of each player tells whether that player is
      connected, a live connection means a null timer, and with none left an active match has
      one exactly when somebody ever joined or the service has restarted since. */
  lemma ObserversSeeABeginning(id: L.MatchId, steps: seq<Step>)
    ensures var w := Run(Start(id), steps);
      var announced, stages := w.live.announced, w.chain.stages;
      && |stages| <= |announced| && P.Alternates(announced)
      && Delivered(announced[..|stages|], stages) <= announced && P.Alternates(Delivered(announced[..|stages|], stages))
      && (w.tasks == map[] ==>
            && (forall u :: P.LastOf(announced, u) == P.PlayerOnline(w.live.connections, u))
            && (w.live.active && w.live.connections != map[] ==> w.live.timer.None?)
            && (w.live.active && w.live.connections == map[] ==> (w.live.timer.Some? <==> w.live.joined || w.live.recovered)))
  {
    var whole := RunRefines(id, steps);
    P.PresenceIsFaithful(whole);
    var w := Run(Start(id), steps);
    hide Run, P.Run, P.Alternates, P.LastOf, P.PlayerOnline, Owing;
    SettledAnnouncements(w);
    if w.tasks == map[] {
      NothingOnItsWay(w);
    }
    var announced, stages := w.live.announced, w.chain.stages;
    DoneFirst(w.chain);
    DeliveredUpTo(announced[..|stages|], stages);
    var delivered := Delivered(announced[..|stages|], stages);
    BeginningAlternates(announced, |delivered|);
    assert announced[..|delivered|] == delivered;
    hide Settled, Sound;
  }

  lemma SettledAnnouncements(w: World)
    ensures Settled(w).announced == w.live.announced
  {
  }

  lemma DoneFirst(c: L.Chain)
    requires L.Ordered(c)
    ensures forall i, j :: 0 <= i < j < |c.stages| && c.stages[j] == L.Done ==> c.stages[i] == L.Done
  {
  }
}
