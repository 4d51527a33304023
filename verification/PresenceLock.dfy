/** The per-match operation lock that presence creates on demand and deletes with its last
    reference (server/internal/matches/presence.go): any interleaving of entering, taking the
    token, cancelling, returning it and leaving. */
module PresenceLock {
  import opened Common

  type MatchId = nat
  type ThreadId = nat
  type OperationId = nat

  /** One allocated operation: its reference count and its token; the model also remembers which
      thread took the token. */
  datatype Operation = Operation(refs: int, token: Option<ThreadId>)

  // Between acquireMatchOperation's two critical steps, after them, and before its last one.
  datatype Thread =
    | Waiting(matchId: MatchId, op: OperationId)
    | Holding(matchId: MatchId, op: OperationId)
    | Leaving(matchId: MatchId, op: OperationId)

  datatype World = World(
    operations: map<MatchId, OperationId>,
    heap: map<OperationId, Operation>,
    threads: map<ThreadId, Thread>)

  datatype Step =
    | Enter(thread: ThreadId, matchId: MatchId, created: OperationId)
    | Take(thread: ThreadId)
    | Cancel(thread: ThreadId)
    | Return(thread: ThreadId)
    | Leave(thread: ThreadId)

  predicate Enabled(w: World, s: Step) {
    match s
    case Enter(t, m, created) => t !in w.threads && created !in w.heap && (m in w.operations ==> w.operations[m] in w.heap)
    case Take(t) => t in w.threads && w.threads[t].Waiting? && w.threads[t].op in w.heap && w.heap[w.threads[t].op].token.None?
    case Cancel(t) => t in w.threads && w.threads[t].Waiting?
    case Return(t) => t in w.threads && w.threads[t].Holding? && w.threads[t].op in w.heap
    case Leave(t) => t in w.threads && w.threads[t].Leaving? && w.threads[t].op in w.heap
  }

  function Next(w: World, s: Step): World
    requires Enabled(w, s)
  {
    match s
    case Enter(t, m, created) =>
      // Looks the operation up, or allocates one, and counts itself in.
      var op := if m in w.operations then w.operations[m] else created;
      var record := if m in w.operations then w.heap[op] else Operation(0, None);
      World(w.operations[m := op], w.heap[op := record.(refs := record.refs + 1)], w.threads[t := Waiting(m, op)])
    case Take(t) =>
      var x := w.threads[t];
      w.(heap := w.heap[x.op := w.heap[x.op].(token := Some(t))], threads := w.threads[t := Holding(x.matchId, x.op)])
    case Cancel(t) =>
      w.(threads := w.threads[t := Leaving(w.threads[t].matchId, w.threads[t].op)])
    case Return(t) =>
      var x := w.threads[t];
      w.(heap := w.heap[x.op := w.heap[x.op].(token := None)], threads := w.threads[t := Leaving(x.matchId, x.op)])
    case Leave(t) =>
      var x := w.threads[t];
      var record := w.heap[x.op].(refs := w.heap[x.op].refs - 1);
      World(if record.refs == 0 && x.matchId in w.operations && w.operations[x.matchId] == x.op
            then w.operations - {x.matchId} else w.operations,
            w.heap[x.op := record], w.threads - {t})
  }

  function Run(w: World, steps: seq<Step>): World {
    if steps == [] then w
    else
      var before := Run(w, steps[..|steps| - 1]);
      if Enabled(before, steps[|steps| - 1]) then Next(before, steps[|steps| - 1]) else before
  }

  ghost function Users(threads: map<ThreadId, Thread>, op: OperationId): set<ThreadId> {
    set t | t in threads && threads[t].op == op
  }

  /** A thread in the lock refers to the operation its match has now, and holds that lock
      exactly when the token is its own. */
  ghost predicate ThreadFits(w: World, t: ThreadId)
    requires t in w.threads
  {
    var x := w.threads[t];
    && x.matchId in w.operations && w.operations[x.matchId] == x.op && x.op in w.heap
    && (x.Holding? <==> w.heap[x.op].token == Some(t))
  }

  /** A stored operation counts exactly the threads that refer to it, and there is one. */
  ghost predicate OperationFits(w: World, m: MatchId)
    requires m in w.operations
  {
    var op := w.operations[m];
    && op in w.heap && w.heap[op].refs == |Users(w.threads, op)| > 0
    && (w.heap[op].token.Some? ==> w.heap[op].token.value in w.threads && w.threads[w.heap[op].token.value].op == op)
  }

  ghost predicate Sound(w: World) {
    && (forall t :: t in w.threads ==> ThreadFits(w, t))
    && (forall m :: m in w.operations ==> OperationFits(w, m))
    && (forall m, n :: m in w.operations && n in w.operations && w.operations[m] == w.operations[n] ==> m == n)
  }

  lemma UsersAfterEntering(threads: map<ThreadId, Thread>, t: ThreadId, x: Thread, op: OperationId)
    requires t !in threads
    ensures |Users(threads[t := x], op)| == |Users(threads, op)| + if x.op == op then 1 else 0
  {
    if x.op == op {
      assert Users(threads[t := x], op) == Users(threads, op) + {t};
    } else {
      assert Users(threads[t := x], op) == Users(threads, op);
    }
  }

  lemma UsersAfterMoving(threads: map<ThreadId, Thread>, t: ThreadId, x: Thread, op: OperationId)
    requires t in threads && x.op == threads[t].op
    ensures Users(threads[t := x], op) == Users(threads, op)
  {
  }

  lemma UsersAfterLeaving(threads: map<ThreadId, Thread>, t: ThreadId, op: OperationId)
    requires t in threads
    ensures |Users(threads - {t}, op)| == |Users(threads, op)| - if threads[t].op == op then 1 else 0
  {
    var rest := threads - {t};
    assert rest[t := threads[t]] == threads;
    UsersAfterEntering(rest, t, threads[t], op);
  }

  lemma UserMeansRefs(w: World, t: ThreadId)
    requires t in w.threads
    ensures |Users(w.threads, w.threads[t].op)| > 0
  {
    assert t in Users(w.threads, w.threads[t].op);
  }

  lemma UnusedIsFresh(w: World, op: OperationId)
    requires Sound(w) && op !in w.heap
    ensures |Users(w.threads, op)| == 0 && forall m :: m in w.operations ==> w.operations[m] != op
  {
    forall t | t in w.threads ensures w.threads[t].op != op {
      assert ThreadFits(w, t);
    }
    forall m | m in w.operations ensures w.operations[m] != op {
      assert OperationFits(w, m);
    }
    assert Users(w.threads, op) == {};
  }

  lemma EnteredThreadFits(w: World, t: ThreadId, m: MatchId, created: OperationId, u: ThreadId)
    requires Sound(w) && Enabled(w, Enter(t, m, created)) && u in Next(w, Enter(t, m, created)).threads
    ensures ThreadFits(Next(w, Enter(t, m, created)), u)
  {
    if u == t {
      EnteringThreadFits(w, t, m, created);
    } else {
      assert ThreadFits(w, u);
      hide Sound, Users;
      OtherThreadFits(w, t, m, created, u);
    }
  }

  lemma EnteringThreadFits(w: World, t: ThreadId, m: MatchId, created: OperationId)
    requires Sound(w) && Enabled(w, Enter(t, m, created))
    ensures ThreadFits(Next(w, Enter(t, m, created)), t)
  {
    if m in w.operations {
      assert OperationFits(w, m);
    }
    hide Users;
  }

  lemma OtherThreadFits(w: World, t: ThreadId, m: MatchId, created: OperationId, u: ThreadId)
    requires Enabled(w, Enter(t, m, created)) && u in w.threads && u != t && ThreadFits(w, u)
    ensures ThreadFits(Next(w, Enter(t, m, created)), u)
  {
  }

  lemma EnterKeepsSound(w: World, t: ThreadId, m: MatchId, created: OperationId)
    requires Sound(w) && Enabled(w, Enter(t, m, created))
    ensures Sound(Next(w, Enter(t, m, created)))
  {
    var after := Next(w, Enter(t, m, created));
    UnusedIsFresh(w, created);
    assert after.operations == w.operations[m := after.operations[m]];
    hide Next, Enabled, ThreadFits, OperationFits;
    forall u | u in after.threads ensures ThreadFits(after, u) {
      EnteredThreadFits(w, t, m, created, u);
    }
    forall n | n in after.operations ensures OperationFits(after, n) {
      EnteredOperationFits(w, t, m, created, n);
    }
    EnteredIsUnique(w, t, m, created);
  }

  lemma EnteredOperationFits(w: World, t: ThreadId, m: MatchId, created: OperationId, n: MatchId)
    requires Sound(w) && Enabled(w, Enter(t, m, created)) && n in Next(w, Enter(t, m, created)).operations
    ensures OperationFits(Next(w, Enter(t, m, created)), n)
  {
    UnusedIsFresh(w, created);
    hide Users, ThreadFits;
    var after := Next(w, Enter(t, m, created));
    if n in w.operations {
      assert OperationFits(w, n);
    }
    UsersAfterEntering(w.threads, t, Waiting(m, after.operations[m]), after.operations[n]);
  }

  lemma EnteredIsUnique(w: World, t: ThreadId, m: MatchId, created: OperationId)
    requires Sound(w) && Enabled(w, Enter(t, m, created))
    ensures var after := Next(w, Enter(t, m, created)).operations;
      forall a, b :: a in after && b in after && after[a] == after[b] ==> a == b
  {
    UnusedIsFresh(w, created);
    hide Users, ThreadFits, OperationFits;
  }

  lemma MoveKeepsSound(w: World, s: Step)
    requires Sound(w) && Enabled(w, s) && (s.Take? || s.Cancel? || s.Return?)
    ensures Sound(Next(w, s))
  {
    hide Next, Enabled, ThreadFits, OperationFits;
    var after := Next(w, s);
    MovedTables(w, s);
    assert ThreadFits(w, s.thread);
    forall u | u in after.threads ensures ThreadFits(after, u) {
      assert ThreadFits(w, u);
      MovedThreadFits(w, s, u);
    }
    forall n | n in after.operations ensures OperationFits(after, n) {
      assert OperationFits(w, n);
      MovedOperationFits(w, s, n);
    }
  }

  lemma MovedTables(w: World, s: Step)
    requires Enabled(w, s) && (s.Take? || s.Cancel? || s.Return?)
    ensures s.thread in w.threads && Next(w, s).operations == w.operations && Next(w, s).threads.Keys == w.threads.Keys
  {
  }

  lemma MovedThreadFits(w: World, s: Step, u: ThreadId)
    requires Enabled(w, s) && (s.Take? || s.Cancel? || s.Return?) && u in w.threads && ThreadFits(w, u)
    requires s.thread in w.threads && ThreadFits(w, s.thread)
    ensures u in Next(w, s).threads && ThreadFits(Next(w, s), u)
  {
  }

  lemma MovedOperationFits(w: World, s: Step, n: MatchId)
    requires Enabled(w, s) && (s.Take? || s.Cancel? || s.Return?) && n in w.operations && OperationFits(w, n)
    requires s.thread in w.threads && ThreadFits(w, s.thread)
    ensures n in Next(w, s).operations && OperationFits(Next(w, s), n)
  {
    hide Users;
    UsersAfterMoving(w.threads, s.thread, Next(w, s).threads[s.thread], w.operations[n]);
  }

  lemma LeaveKeepsSound(w: World, t: ThreadId)
    requires Sound(w) && Enabled(w, Leave(t))
    ensures Sound(Next(w, Leave(t)))
  {
    hide Users;
    var after := Next(w, Leave(t));
    var x := w.threads[t];
    assert ThreadFits(w, t);
    assert OperationFits(w, x.matchId);
    forall u | u in after.threads ensures ThreadFits(after, u) {
      assert ThreadFits(w, u);
      UserMeansRefs(after, u);
      UsersAfterLeaving(w.threads, t, w.threads[u].op);
    }
    forall n | n in after.operations ensures OperationFits(after, n) {
      assert OperationFits(w, n);
      UsersAfterLeaving(w.threads, t, after.operations[n]);
    }
    hide ThreadFits, OperationFits;
  }

  lemma {:induction false} RunKeepsSound(w: World, steps: seq<Step>)
    requires Sound(w)
    ensures Sound(Run(w, steps))
  {
    hide Sound, Next, Enabled;
    if steps != [] {
      var before, last := Run(w, steps[..|steps| - 1]), steps[|steps| - 1];
      RunKeepsSound(w, steps[..|steps| - 1]);
      if Enabled(before, last) {
        StepKeepsSound(before, last);
      }
    }
  }

  lemma StepKeepsSound(w: World, s: Step)
    requires Sound(w) && Enabled(w, s)
    ensures Sound(Next(w, s))
  {
    hide Sound, Next, Enabled;
    match s
    case Enter(t, m, created) => EnterKeepsSound(w, t, m, created);
    case Leave(t) => LeaveKeepsSound(w, t);
    case _ => MoveKeepsSound(w, s);
  }

  lemma OneHolder(w: World, t: ThreadId, u: ThreadId)
    requires Sound(w) && t in w.threads && u in w.threads && w.threads[t].Holding? && w.threads[u].Holding?
    requires w.threads[t].matchId == w.threads[u].matchId
    ensures t == u
  {
    assert ThreadFits(w, t) && ThreadFits(w, u);
    hide Users, OperationFits;
  }

  /** Mutual exclusion: however operations are entered, cancelled, deleted and recreated, two
      threads never hold one match's lock at once, and a match keeps an operation exactly as
      long as some thread still refers to it. */
  lemma MutualExclusion(steps: seq<Step>, t: ThreadId, u: ThreadId, m: MatchId)
    ensures var w := Run(World(map[], map[], map[]), steps);
      && (t in w.threads && u in w.threads && w.threads[t] == Holding(m, w.threads[t].op) && w.threads[u] == Holding(m, w.threads[u].op) ==>
            t == u)
      && (m in w.operations <==> exists v :: v in w.threads && w.threads[v].matchId == m)
  {
    RunKeepsSound(World(map[], map[], map[]), steps);
    hide Run;
    var w := Run(World(map[], map[], map[]), steps);
    if t in w.threads && u in w.threads && w.threads[t] == Holding(m, w.threads[t].op) && w.threads[u] == Holding(m, w.threads[u].op) {
      OneHolder(w, t, u);
    }
    if m in w.operations {
      assert OperationFits(w, m);
      assert Users(w.threads, w.operations[m]) != {};
      var v :| v in Users(w.threads, w.operations[m]);
      assert ThreadFits(w, v);
      assert w.threads[v].matchId == m;
    }
    if v :| v in w.threads && w.threads[v].matchId == m {
      assert ThreadFits(w, v);
    }
  }

  // -------------------------------------------------------- the table and its critical steps

  /** The operations map and the operation records, as acquireMatchOperation and
      releaseMatchOperation update them; each method is one critical step. */
  class OperationTable {
    var operations: map<MatchId, OperationId>
    var heap: map<OperationId, Operation>
    var threads: map<ThreadId, Thread>

    function Value(): World
      reads this
    {
      World(operations, heap, threads)
    }

    constructor ()
      ensures Value() == World(map[], map[], map[])
    {
      operations, heap, threads := map[], map[], map[];
    }

    method CountIn(t: ThreadId, m: MatchId, created: OperationId) returns (op: OperationId)
      requires Enabled(Value(), Enter(t, m, created))
      modifies this
      ensures Value() == Next(old(Value()), Enter(t, m, created)) && m in operations && op == operations[m]
    {
      if m !in operations {
        heap := heap[created := Operation(0, None)];
        operations := operations[m := created];
      }
      op := operations[m];
      heap := heap[op := heap[op].(refs := heap[op].refs + 1)];
      threads := threads[t := Waiting(m, op)];
      assert operations == old(operations)[m := op];
    }

    /** The select: the token if it is there, or giving up when the context is done. */
    method TakeOrCancel(t: ThreadId, cancelled: bool) returns (held: bool)
      requires Enabled(Value(), if cancelled then Cancel(t) else Take(t))
      modifies this
      ensures Value() == Next(old(Value()), if cancelled then Cancel(t) else Take(t)) && held == !cancelled
    {
      var x := threads[t];
      if cancelled {
        threads := threads[t := Leaving(x.matchId, x.op)];
        return false;
      }
      heap := heap[x.op := heap[x.op].(token := Some(t))];
      threads := threads[t := Holding(x.matchId, x.op)];
      return true;
    }

    method GiveBack(t: ThreadId)
      requires Enabled(Value(), Return(t))
      modifies this
      ensures Value() == Next(old(Value()), Return(t))
    {
      var x := threads[t];
      heap := heap[x.op := heap[x.op].(token := None)];
      threads := threads[t := Leaving(x.matchId, x.op)];
    }

    method CountOut(t: ThreadId) returns (deleted: bool)
      requires Enabled(Value(), Leave(t))
      modifies this
      ensures Value() == Next(old(Value()), Leave(t))
      ensures deleted <==> operations != old(operations)
    {
      var x := threads[t];
      heap := heap[x.op := heap[x.op].(refs := heap[x.op].refs - 1)];
      deleted := heap[x.op].refs == 0 && x.matchId in operations && operations[x.matchId] == x.op;
      if deleted {
        operations := operations - {x.matchId};
      }
      threads := threads - {t};
    }
  }

  // ------------------------------------------------------------------- notification order

  // A boundary's goroutine: reserved under the lock, dispatched after it, delivering, done.
  datatype Stage = Reserved | Dispatched | Delivering | Done

  /** The notification chain of one match: the channel of notification `i` is numbered `i`. */
  datatype Chain = Chain(
    tail: Option<nat>,
    predecessors: seq<Option<nat>>,
    stages: seq<Stage>)

  datatype Move = Reserve | Dispatch(i: nat) | Begin(i: nat) | Finish(i: nat) | Forget(i: nat)

  predicate CanMove(c: Chain, m: Move) {
    |c.predecessors| == |c.stages| && match m
      case Reserve => true
      case Dispatch(i) => i < |c.stages| && c.stages[i] == Reserved
      case Begin(i) => i < |c.stages| && c.stages[i] == Dispatched
        && (c.predecessors[i].Some? ==> c.predecessors[i].value < |c.stages| && c.stages[c.predecessors[i].value] == Done)
      case Finish(i) => i < |c.stages| && c.stages[i] == Delivering
      case Forget(i) => i < |c.stages| && c.stages[i] == Done
  }

  function Moved(c: Chain, m: Move): Chain
    requires CanMove(c, m)
  {
    match m
    case Reserve => Chain(Some(|c.stages|), c.predecessors + [c.tail], c.stages + [Reserved])
    case Dispatch(i) => c.(stages := c.stages[i := Dispatched])
    case Begin(i) => c.(stages := c.stages[i := Delivering])
    case Finish(i) => c.(stages := c.stages[i := Done])
    case Forget(i) => if c.tail == Some(i) then c.(tail := None) else c
  }

  function Played(c: Chain, moves: seq<Move>): Chain {
    if moves == [] then c
    else
      var before := Played(c, moves[..|moves| - 1]);
      if CanMove(before, moves[|moves| - 1]) then Moved(before, moves[|moves| - 1]) else before
  }

  ghost predicate AllDone(c: Chain, n: nat)
    requires n <= |c.stages|
  {
    forall i :: 0 <= i < n ==> c.stages[i] == Done
  }

  /** Each notification waits for the one before it, or started when all before it were done. */
  ghost predicate Ordered(c: Chain) {
    && |c.predecessors| == |c.stages|
    && (forall i :: 0 <= i < |c.stages| ==>
          (if i > 0 && c.predecessors[i] == Some(i - 1) then true else c.predecessors[i].None? && AllDone(c, i)))
    && (forall i :: 0 <= i < |c.stages| && (c.stages[i] == Delivering || c.stages[i] == Done) ==> AllDone(c, i))
    && (match c.tail
        case None => AllDone(c, |c.stages|)
        case Some(i) => i == |c.stages| - 1)
  }

  lemma MoveKeepsOrder(c: Chain, m: Move)
    requires Ordered(c) && CanMove(c, m)
    ensures Ordered(Moved(c, m))
  {
    var d := Moved(c, m);
    forall i | 0 <= i <= |c.stages| && AllDone(c, i) ensures AllDone(d, i) {
    }
    if m.Begin? {
      assert m.i > 0 && c.predecessors[m.i] == Some(m.i - 1) ==> AllDone(c, m.i);
    }
  }

  lemma {:induction false} PlayKeepsOrder(c: Chain, moves: seq<Move>)
    requires Ordered(c)
    ensures Ordered(Played(c, moves))
  {
    hide Ordered, CanMove, Moved;
    if moves != [] {
      PlayKeepsOrder(c, moves[..|moves| - 1]);
      var before := Played(c, moves[..|moves| - 1]);
      if CanMove(before, moves[|moves| - 1]) {
        MoveKeepsOrder(before, moves[|moves| - 1]);
      }
    }
  }

  /** Notifications of a match are delivered one at a time, in the order they were reserved, and
      the earliest one still outstanding can always proceed once dispatched. */
  lemma OneAtATimeInOrder(moves: seq<Move>, i: nat, j: nat)
    requires i < j < |Played(Chain(None, [], []), moves).stages|
    ensures var c := Played(Chain(None, [], []), moves);
      && (c.stages[j] == Delivering || c.stages[j] == Done ==> c.stages[i] == Done)
      && (AllDone(c, i) && c.stages[i] == Dispatched ==> CanMove(c, Begin(i)))
  {
    PlayKeepsOrder(Chain(None, [], []), moves);
    hide Played;
  }
}
