/** The match service and its clock: a commit dated before its match was created leaves a row the
    service refuses to load, for good. */
module MatchClock {
  import opened Common
  import opened MatchModel
  import opened MatchTables
  import opened MatchFiles
  import opened MatchProofs
  import opened MatchRuns

  lemma ReadableExactlyIfLoads<S(!new)>(reg: Registry<S>, t: Tables, id: MatchId)
    requires Sound(reg, t) && id in t.matches
    ensures SnapshotOf(reg, t, id).Ok? <==> t.matches[id].m.createdAt <= t.matches[id].m.updatedAt
    ensures SnapshotOf(reg, t, id).Ok? <==> Loads(FileOf(t, id))
    ensures SnapshotOf(reg, t, id).Err? ==> SnapshotOf(reg, t, id) == Err(Internal)
  {
    hide Sound, Good, Replay, RebuildSnapshot, SlotsComplete;
    FilePlayers(reg, t, id);
  }

  /** Whatever operation commits to a match, an action, a cancellation or an abandonment: the match
      can be read afterwards if and only if the clock was not behind the match's creation. */
  lemma CommitLoadsExactlyIfClockHolds<S(!new)>(reg: Registry<S>, t: Tables, op: Op, id: MatchId)
    requires Lawful(reg) && Sound(reg, t) && FairDie(op) && Commits(reg, t, op, id)
    ensures var after := Exec(reg, t, op).1;
      && (SnapshotOf(reg, after, id).Ok? <==> op.now >= t.matches[id].m.createdAt)
      && (op.now < t.matches[id].m.createdAt ==> SnapshotOf(reg, after, id) == Err(Internal) && Unreadable(after, id))
  {
    SoundKeys(reg, t);
    hide Sound, Lawful, Exec, ForeignKeys, CredentialsActive, FairDie, SnapshotOf, Loads, Stamped, FileOf, HasGameplay;
    var after := Exec(reg, t, op).1;
    OpKeepsSound(reg, t, op);
    OpKeeps(reg, t, op);
    CommitIsStamped(t, after, id, op.now);
    ReadableExactlyIfLoads(reg, after, id);
    LogIsPlayedOrOver(reg, after, id);
  }

  lemma CommitIsStamped(t: Tables, after: Tables, id: MatchId, now: int)
    requires id in t.matches && id in after.matches && Kept(t, after) && ClockKept(t, after, now) && FileOf(after, id).events != FileOf(t, id).events
    ensures after.matches[id].m.createdAt == t.matches[id].m.createdAt && after.matches[id].m.updatedAt == now
    ensures FileOf(after, id).events != []
  {
    hide Loads, HasGameplay, Selected;
    assert Stamped(t, after, id, now) && MatchKept(t, after, id);
  }

  lemma LogIsPlayedOrOver<S(!new)>(reg: Registry<S>, t: Tables, id: MatchId)
    requires Lawful(reg) && Sound(reg, t) && id in t.matches && FileOf(t, id).events != []
    ensures t.matches[id].m.status != Active || HasGameplay(FileOf(t, id).events)
  {
    hide Sound, Lawful, Good, Replay, RebuildSnapshot, SlotsComplete, Selected, LawfulRules, SummaryFits;
    FilePlayers(reg, t, id);
    if t.matches[id].m.status == Active {
      ActiveFile(reg, FileOf(t, id));
      assert FileOf(t, id).events[0].kind.Accepted?;
    }
  }

  /** A match the service refuses to load, and can no longer cancel. */
  predicate Unreadable(t: Tables, id: MatchId) {
    id in t.matches && !Loads(FileOf(t, id)) && (t.matches[id].m.status != Active || HasGameplay(FileOf(t, id).events))
  }

  lemma OpLeavesUnreadable<S(!new)>(reg: Registry<S>, t: Tables, op: Op, id: MatchId)
    requires ForeignKeys(t) && Unreadable(t, id)
    ensures var after := Exec(reg, t, op).1;
      && Unreadable(after, id) && FileOf(after, id) == FileOf(t, id)
      && (t.matches[id].m.status == Active && t.matches[id].offlineSince.Some? ==> after.matches[id] == t.matches[id])
  {
    hide Exec, ForeignKeys, Loads, HasGameplay, Selected;
    OpKeeps(reg, t, op);
    var after := Exec(reg, t, op).1;
    assert MatchKept(t, after, id) && Stamped(t, after, id, op.now);
  }

  /** And there is no way back: over every further run its file never changes, every read answers an
      internal error, and if it is active with its offline timer set, that stays so too. */
  lemma {:induction false} UnreadableForGood<S(!new)>(reg: Registry<S>, t: Tables, ops: seq<Op>, id: MatchId)
    requires Lawful(reg) && Sound(reg, t) && Unreadable(t, id) && forall i :: 0 <= i < |ops| ==> FairDie(ops[i])
    ensures var later := Run(reg, t, ops);
      && Unreadable(later, id) && FileOf(later, id) == FileOf(t, id) && SnapshotOf(reg, later, id) == Err(Internal)
      && (t.matches[id].m.status == Active && t.matches[id].offlineSince.Some? ==> later.matches[id] == t.matches[id])
  {
    hide Sound, Lawful, Exec, FairDie, FileOf, SnapshotOf, Loads, HasGameplay;
    RunKeepsSound(reg, t, ops);
    if ops != [] {
      var front := ops[..|ops| - 1];
      var before := Run(reg, t, front);
      UnreadableForGood(reg, t, front, id);
      RunKeepsSound(reg, t, front);
      SoundKeys(reg, before);
      OpLeavesUnreadable(reg, before, ops[|ops| - 1], id);
      FileColumns(t, id);
      FileColumns(before, id);
    }
    UnreadableReads(reg, Run(reg, t, ops), id);
  }

  lemma UnreadableReads<S(!new)>(reg: Registry<S>, t: Tables, id: MatchId)
    requires Sound(reg, t) && Unreadable(t, id)
    ensures SnapshotOf(reg, t, id) == Err(Internal)
  {
    hide Sound, SnapshotOf, HasGameplay, Loads, FileOf;
    ReadableExactlyIfLoads(reg, t, id);
  }

  // ------------------------------------------------------------------------ a blocked sweep

  /** One expired match that cannot be loaded stops every sweep at itself: the sweep fails, and no
      match that comes after it is abandoned, however long it has been offline. */
  lemma SweepStopsAtUnreadable<S(!new)>(reg: Registry<S>, t: Tables, id: MatchId, now: int)
    requires id in t.matches && Expired(t.matches[id], now - FULLY_OFFLINE_ABANDON_AFTER) && !Loads(FileOf(t, id))
    ensures var (_, error, after) := AbandonExpired(reg, t, now);
      && error.Some? && after.matches.Keys == t.matches.Keys
      && forall x :: x in t.matches && x >= id ==> after.matches[x] == t.matches[x] && FileOf(after, x) == FileOf(t, x)
  {
    var cutoff := now - FULLY_OFFLINE_ABANDON_AFTER;
    hide AbandonEach, Expired, Loads, FileOf;
    var due := Due(t, cutoff);
    var ids := Sorted(due);
    assert id in ids;
    var j :| 0 <= j < |ids| && ids[j] == id;
    SortedAscends(due);
    hide Sorted, Due;
    SweepStops(reg, t, ids, j, cutoff, now);
  }

  lemma {:induction false} SweepStops<S(!new)>(reg: Registry<S>, t: Tables, ids: seq<MatchId>, j: nat, cutoff: int, now: int)
    requires j < |ids| && forall a, b :: 0 <= a < b < |ids| ==> ids[a] != ids[b]
    requires ids[j] in t.matches && !Loads(FileOf(t, ids[j]))
    ensures var (_, error, after) := AbandonEach(reg, t, ids, cutoff, now);
      && error.Some? && after.matches.Keys == t.matches.Keys
      && forall x :: x in t.matches && x !in ids[..j] ==> after.matches[x] == t.matches[x] && FileOf(after, x) == FileOf(t, x)
  {
    hide Loads, FileOf, AbandonIfExpired;
    var front, last := ids[..|ids| - 1], ids[|ids| - 1];
    if j < |front| {
      assert front[..j] == ids[..j];
      SweepStops(reg, t, front, j, cutoff, now);
    } else {
      assert front == ids[..j];
      SweepTouchesListed(reg, t, front, cutoff, now);
      var before := AbandonEach(reg, t, front, cutoff, now).2;
      assert last !in front;
      NotAbandoned(reg, before, last, cutoff, now);
    }
  }

  lemma NotAbandoned<S(!new)>(reg: Registry<S>, t: Tables, id: MatchId, cutoff: int, now: int)
    requires id in t.matches && !Loads(FileOf(t, id))
    ensures AbandonIfExpired(reg, t, id, cutoff, now) == (Err(Internal), t)
  {
    hide Loads, FileOf;
  }

  lemma {:induction false} SweepTouchesListed<S(!new)>(reg: Registry<S>, t: Tables, ids: seq<MatchId>, cutoff: int, now: int)
    ensures var after := AbandonEach(reg, t, ids, cutoff, now).2;
      && after.matches.Keys == t.matches.Keys
      && forall x :: x in t.matches && x !in ids ==> after.matches[x] == t.matches[x] && FileOf(after, x) == FileOf(t, x)
  {
    hide FileOf, AbandonIfExpired;
    if ids != [] {
      var front, last := ids[..|ids| - 1], ids[|ids| - 1];
      SweepTouchesListed(reg, t, front, cutoff, now);
      OneAbandonTouchesOne(reg, AbandonEach(reg, t, front, cutoff, now).2, last, cutoff, now);
    }
  }

  lemma OneAbandonTouchesOne<S(!new)>(reg: Registry<S>, t: Tables, id: MatchId, cutoff: int, now: int)
    ensures var after := AbandonIfExpired(reg, t, id, cutoff, now).1;
      && after.matches.Keys == t.matches.Keys
      && forall x :: x in t.matches && x != id ==> after.matches[x] == t.matches[x] && FileOf(after, x) == FileOf(t, x)
  {
    hide Committed, RebuildSnapshot, Selected, Loads, Expired;
    var (r, after) := AbandonIfExpired(reg, t, id, cutoff, now);
    if r.Ok? && r.value.Some? {
      var f := FileOf(t, id);
      var g := Extended(f, MatchAbandoned, None, None, Some(Ending(Abandoned, None, None)), now);
      CommittedColumns(t, id, f, g, None);
      forall x | x in t.matches && x != id ensures after.matches[x] == t.matches[x] && FileOf(after, x) == FileOf(t, x) {
        FileAfterCommit(t, id, f, g, None, x);
      }
      hide FileOf;
    }
  }

  /** The two together: once an active match is unreadable with its timer set at `since`, every
      later sweep a day after that fails, and none reaches a match with a larger identifier. */
  lemma SweepsStayBlocked<S(!new)>(reg: Registry<S>, t: Tables, ops: seq<Op>, id: MatchId, now: int)
    requires Lawful(reg) && Sound(reg, t) && Unreadable(t, id) && forall i :: 0 <= i < |ops| ==> FairDie(ops[i])
    requires t.matches[id].m.status == Active && t.matches[id].offlineSince.Some?
    requires t.matches[id].offlineSince.value <= now - FULLY_OFFLINE_ABANDON_AFTER
    ensures var later := Run(reg, t, ops);
      var (_, error, after) := AbandonExpired(reg, later, now);
      && error.Some? && after.matches.Keys == later.matches.Keys
      && forall x :: x in later.matches && x >= id ==> after.matches[x] == later.matches[x] && FileOf(after, x) == FileOf(later, x)
  {
    hide Sound, Lawful, FairDie, Run, AbandonExpired, Loads, HasGameplay;
    UnreadableForGood(reg, t, ops, id);
    hide FileOf;
    SweepStopsAtUnreadable(reg, Run(reg, t, ops), id, now);
  }

  // ------------------------------------------------------------------------------ an example

  /** Such a commit is possible: a match created at 1000 and cancelled at 999. */
  lemma ClockStepsBackwards<S(!new)>(reg: Registry<S>)
    requires reg.configured(GomokuGame, None).Some? && reg.single(GomokuGame)
    ensures var t := Run(reg, NoTables(map[1 := User(true, 0), 2 := User(true, 0)]),
                         [CreateOp(GomokuGame, 1, 2, None, Black, 7, 1000), CancelOp(7, 1, 999)]);
      7 in t.matches && t.matches[7].m.status == Cancelled && SnapshotOf(reg, t, 7) == Err(Internal)
  {
    hide CreateMatch, Cancel, SnapshotOf;
    var empty := NoTables(map[1 := User(true, 0), 2 := User(true, 0)]);
    var ops := [CreateOp(GomokuGame, 1, 2, None, Black, 7, 1000), CancelOp(7, 1, 999)];
    assert ops[..1] == [ops[0]] && ops[..1][..0] == [];
    assert Run(reg, empty, ops[..1]) == CreateMatch(reg, empty, GomokuGame, 1, 2, None, Black, 7, 1000).1;
    CancelledBeforeItsCreation(reg, empty, 1, 2, 7, 1000, 999);
  }

  lemma CancelledBeforeItsCreation<S(!new)>(reg: Registry<S>, empty: Tables, initiator: UserId, opponent: UserId, id: MatchId, created: int, cancelled: int)
    requires reg.configured(GomokuGame, None).Some? && reg.single(GomokuGame)
    requires initiator != opponent && empty == NoTables(map[initiator := User(true, 0), opponent := User(true, 0)]) && cancelled < created
    ensures var t := Cancel(reg, CreateMatch(reg, empty, GomokuGame, initiator, opponent, None, Black, id, created).1, id, initiator, cancelled).1;
      id in t.matches && t.matches[id].m.status == Cancelled && SnapshotOf(reg, t, id) == Err(Internal)
  {
    hide RebuildSnapshot;
    var t := CreateMatch(reg, empty, GomokuGame, initiator, opponent, None, Black, id, created).1;
    assert SlotsOf(t, id) == ExpectedSlots(FileOf(t, id), true);
    var after := Cancel(reg, t, id, initiator, cancelled).1;
    assert after.matches[id].m.createdAt == created && after.matches[id].m.updatedAt == cancelled;
  }
}
