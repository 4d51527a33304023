/** Vocabulary shared by the rule engines and the services: optional values, results,
    player colours and the narrow boundary of `gameapi` (events, snapshots, errors). */
module Common {

  datatype Option<+T> = None | Some(value: T)

  datatype Result<+T, +E> = Ok(value: T) | Err(error: E)

  // Identifiers are opaque; only equality and a fixed total order are ever used.
  type UserId = nat

  datatype Color = Black | White {
    function Opposite(): Color {
      if Black? then White else Black
    }
  }

  /** One value per colour, the model of a Go map keyed by "black" and "white". */
  datatype Sides<T> = Sides(black: T, white: T) {
    function Of(c: Color): T {
      if c.Black? then black else white
    }

    function With(c: Color, v: T): Sides<T> {
      if c.Black? then this.(black := v) else this.(white := v)
    }
  }

  datatype Cell = Empty | Stone(color: Color)

  datatype Outcome = Goal | Five | Majority | Draw | Rounds | Resignation

  datatype RuleError =
    | InvalidAction | InvalidEvent | InvalidSnapshot
    | NotYourTurn | InvalidPhase | InvalidMove | CellOccupied
    | ChoiceAlreadyLocked | MatchFinished

  /** `gameapi.Event`; the event type is the payload's constructor. */
  datatype GameEvent<P> = GameEvent(revision: int, actor: UserId, payload: P)

  /** `gameapi.Snapshot`. */
  datatype GameSnapshot<S> = GameSnapshot(revision: int, state: S)

  datatype Applied<S, P> = Applied(event: GameEvent<P>, next: GameSnapshot<S>)

  /** Two players take turns, whoever moves first: the actor is not the one who moved last, and is the
      one who moved before that. */
  predicate TakesTurn<P>(log: seq<GameEvent<P>>, actor: UserId) {
    && (|log| >= 1 ==> actor != log[|log| - 1].actor)
    && (|log| >= 2 ==> actor == log[|log| - 2].actor)
  }

  // ------------------------------------------------------------------ identifiers in order

  ghost predicate IsLeast(least: nat, ids: set<nat>) {
    least in ids && forall id :: id in ids ==> least <= id
  }

  lemma {:induction false} HasLeast(ids: set<nat>)
    requires ids != {}
    ensures exists least :: IsLeast(least, ids)
  {
    var some :| some in ids;
    var rest := ids - {some};
    if rest == {} {
      assert ids == {some};
      assert IsLeast(some, ids);
    } else {
      HasLeast(rest);
      var least :| IsLeast(least, rest);
      LeastOfBoth(some, least, ids);
    }
  }

  lemma LeastOfBoth(some: nat, least: nat, ids: set<nat>)
    requires some in ids && IsLeast(least, ids - {some})
    ensures IsLeast(if some <= least then some else least, ids)
  {
    forall id | id in ids ensures some <= id || least <= id {
      assert id == some || id in ids - {some};
    }
  }

  function Least(ids: set<nat>): (least: nat)
    requires ids != {}
    ensures IsLeast(least, ids)
  {
    HasLeast(ids);
    var least :| least in ids && forall id :: id in ids ==> least <= id;
    least
  }

  /** The members of a set in ascending order. */
  function Sorted(ids: set<nat>): (r: seq<nat>)
    ensures |r| == |ids| && forall id :: id in r <==> id in ids
    decreases |ids|
  {
    if ids == {} then [] else [Least(ids)] + Sorted(ids - {Least(ids)})
  }

  lemma SortedStep(ids: set<UserId>)
    requires ids != {}
    ensures Sorted(ids) == [Least(ids)] + Sorted(ids - {Least(ids)})
  {
    hide Least;
  }

  /** A sequence in strictly ascending order. */
  predicate Ascending(r: seq<nat>) {
    forall i, j :: 0 <= i < j < |r| ==> r[i] < r[j]
  }

  lemma AscendingFrom(least: nat, r: seq<nat>)
    requires Ascending(r) && forall j :: 0 <= j < |r| ==> least < r[j]
    ensures Ascending([least] + r)
  {
  }

  lemma SortedAfterLeast(ids: set<nat>, j: nat)
    requires ids != {} && j < |Sorted(ids - {Least(ids)})|
    ensures Least(ids) < Sorted(ids - {Least(ids)})[j]
  {
    assert Sorted(ids - {Least(ids)})[j] in ids - {Least(ids)};
  }

  lemma {:induction false} SortedAscends(ids: set<nat>)
    ensures Ascending(Sorted(ids))
    decreases |ids|
  {
    if ids != {} {
      hide Sorted, Least, Ascending;
      var rest := ids - {Least(ids)};
      SortedAscends(rest);
      forall j | 0 <= j < |Sorted(rest)| ensures Least(ids) < Sorted(rest)[j] {
        SortedAfterLeast(ids, j);
      }
      AscendingFrom(Least(ids), Sorted(rest));
      SortedStep(ids);
    } else {
      assert Sorted(ids) == [];
    }
  }
}
