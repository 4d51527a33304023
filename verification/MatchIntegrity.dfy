/** What a successful read of a match guarantees, whatever the tables hold: rows that anybody altered are
    noticed, and nothing else is. */
module MatchIntegrity {
  import opened Common
  import opened MatchModel
  import opened MatchTables
  import opened MatchFiles
  import Rps

  // -------------------------------------------------------------------------- each event

  /** Player `i` of the two is this user. */
  predicate IsPlayer(players: seq<Player>, i: int, user: UserId) {
    0 <= i < |players| && players[i].user == user
  }

  /** A played step: under its identifier, by one of the players, in his or her own colour and, where the
      two alternate, in turn. */
  ghost predicate PlayedRow(f: File, k: nat, p: Payload)
    requires k < |f.events|
  {
    var e := f.events[k];
    && e.actionId.Some? && e.actor.Some? && GameOfPayload(p) == f.m.game
    && exists i :: IsPlayer(f.players, i, e.actor.value) && StepOf(p, f.m.game, e.actor.value, f.players[i].color, k)
  }

  predicate StepOf(p: Payload, game: GameId, actor: UserId, color: Color, k: nat) {
    && Owned(p, actor, color)
    && (game == GomokuGame || game == CheckersGame ==> color == if k % 2 == 0 then Black else White)
    && (p.RpsStep? && p.rps.RoundRevealed? ==> actor in p.rps.shown.choices)
  }

  /** The row that ended the match without a step: a player resigns to the other one, a player cancels
      what has not begun, or nobody is left. */
  ghost predicate EndingRow(f: File, k: nat)
    requires k < |f.events|
  {
    var e := f.events[k];
    match e.kind
    case Accepted(_) => false
    case Resigned(of, user, winner) =>
      && (of == f.m.game || (of in {GomokuGame, ReversiGame} && f.m.game in {GomokuGame, ReversiGame}))
      && e.actionId.Some? && e.actor == Some(user)
      && exists i, j :: IsPlayer(f.players, i, user) && IsPlayer(f.players, j, winner) && i != j
    case MatchCancelled => k == 0 && e.actionId.None? && e.actor.Some? && exists i :: IsPlayer(f.players, i, e.actor.value)
    case MatchAbandoned => e.actionId.None? && e.actor.None?
  }

  /** Row `k` is numbered `k + 1`; every row but the last is a played step. */
  ghost predicate RowHolds(f: File, k: nat)
    requires k < |f.events|
  {
    && f.events[k].revision == k + 1
    && (if f.events[k].kind.Accepted? then PlayedRow(f, k, f.events[k].kind.payload) else k == |f.events| - 1 && EndingRow(f, k))
  }

  // The events the game's own rules have to replay.
  function Steps(events: seq<StoredEvent>): GameEvents {
    if events == [] then []
    else
      var e := events[|events| - 1];
      Steps(events[..|events| - 1])
      + (if e.kind.Accepted? && e.actor.Some? then [GameEvent(e.revision, e.actor.value, e.kind.payload)] else [])
  }

  function TypeOf(kind: EventKind): Terminal {
    match kind
    case Accepted(_) => NoTerminal
    case Resigned(of, _, _) => ResignedType(of)
    case MatchCancelled => CancelledType
    case MatchAbandoned => AbandonedType
  }

  lemma RowScans(f: File, s: Scan, k: nat)
    requires TwoPlayers(f.players) && k < |f.events| && s.terminal == NoTerminal && |s.accepted| == k
    ensures var r := ScanRow(f.m.game, f.players, s, f.events[k], k, k + 1 == |f.events|);
      && (r.Some? <==> RowHolds(f, k))
      && (r.Some? ==>
           r.value == Scan(s.accepted + (if f.events[k].kind.Accepted? then [GameEvent(k + 1, f.events[k].actor.value, f.events[k].kind.payload)] else []),
                           TypeOf(f.events[k].kind)))
  {
    hide Owned;
    assert IsPlayer(f.players, 0, f.players[0].user) && IsPlayer(f.players, 1, f.players[1].user);
    assert |s.accepted| == 0 <==> s.accepted == [];
  }

  /** The scan accepts exactly the logs whose rows all hold. */
  lemma {:induction false} ScanIsRowByRow(f: File, n: nat)
    requires TwoPlayers(f.players) && n <= |f.events|
    ensures ScanTo(f.m.game, f.players, f.events, n).Some? <==> forall k :: 0 <= k < n ==> RowHolds(f, k)
    ensures ScanTo(f.m.game, f.players, f.events, n).Some? ==>
      var s := ScanTo(f.m.game, f.players, f.events, n).value;
      && s.accepted == Steps(f.events[..n]) && s.terminal == (if n == 0 then NoTerminal else TypeOf(f.events[n - 1].kind))
      && (n < |f.events| ==> |s.accepted| == n && s.terminal == NoTerminal)
  {
    hide RowHolds, ScanRow;
    if n > 0 {
      ScanIsRowByRow(f, n - 1);
      assert f.events[..n][..n - 1] == f.events[..n - 1];
      var before := ScanTo(f.m.game, f.players, f.events, n - 1);
      if before.Some? {
        RowScans(f, before.value, n - 1);
        if RowHolds(f, n - 1) {
          RowFacts(f, n - 1);
        }
      }
    }
  }

  lemma RowFacts(f: File, k: nat)
    requires k < |f.events| && RowHolds(f, k)
    ensures f.events[k].revision == k + 1 && (f.events[k].kind.Accepted? ==> f.events[k].actor.Some?)
    ensures k + 1 < |f.events| ==> f.events[k].kind.Accepted?
  {
    hide Owned;
  }

  // --------------------------------------------------------------------- the whole match

  /** The seats and the turn of the replayed game after `n` steps: nobody is seated before the first; then
      black is the player who has black, and white the other, from the second step on (in flight chess once
      white has moved); black begins, and where the two alternate the turn goes by the number of steps. */
  ghost predicate SeatsAgree(game: GameId, s: Summary, n: nat, players: seq<Player>) {
    game != RpsGame ==>
      && (n == 0 ==> s.black.None? && s.white.None? && s.next == Some(Black))
      && (n > 0 ==> s.black.Some? && Wears(players, s.black.value, Black))
      && (s.white.Some? ==> Wears(players, s.white.value, White))
      && (game != FlightGame ==> (s.white.Some? <==> n >= 2)) && (game == FlightGame ==> s.next.Some?)
      && (game == GomokuGame || game == CheckersGame ==> s.next == Some(if n % 2 == 0 then Black else White))
  }

  ghost predicate Wears(players: seq<Player>, user: UserId, c: Color) {
    exists i :: IsPlayer(players, i, user) && players[i].color == c
  }

  /** The match row says what the log and the replayed game say. */
  ghost predicate RowAgrees(m: Match, s: Summary, players: seq<Player>, events: seq<StoredEvent>) {
    var last := if events == [] then NoTerminal else TypeOf(events[|events| - 1].kind);
    var undecided := s.active && s.result.None? && s.winner.None?;
    match m.status
       case Active => last == NoTerminal && undecided && m.result.None? && m.winner.None? && m.finishedAt.None?
       case Cancelled => last == CancelledType && s.active && (m.game != RpsGame ==> undecided) && m.result.None? && m.winner.None? && m.finishedAt.Some?
       case Abandoned => last == AbandonedType && s.active && (m.game != RpsGame ==> undecided) && m.result.None? && m.winner.None? && m.finishedAt.Some?
       case Finished =>
         && m.finishedAt.Some? && m.result.Some?
         && (if m.result == Some(Resignation) then
               && last == ResignedType(m.game) && undecided && m.winner.Some? && Plays(players, m.winner.value)
               && (m.game != RpsGame ==> events[|events| - 1].kind.winner == m.winner.value)
             else
               && last == NoTerminal && !s.active && s.result == m.result && s.winner == m.winner
               && (m.result == Some(Draw) <==> m.winner.None?)
               && (m.winner.Some? ==> Plays(players, m.winner.value)))
  }

  /** Which outcomes a game has. */
  predicate Decides(game: GameId, result: Outcome) {
    match result
    case Resignation => true
    case Rounds => game == RpsGame
    case Majority => game == ReversiGame
    case Goal => game == CheckersGame || game == FlightGame
    case Five => game != RpsGame
    case Draw => game != RpsGame
  }

  ghost predicate Consistent<S>(reg: Registry<S>, t: Tables, id: MatchId) {
    && id in t.matches
    && var f := FileOf(t, id);
       && f.m.revision == |f.events| <= (if f.m.game == FlightGame then 512 else 226) && f.m.createdAt <= f.m.updatedAt
       && |f.players| == 2 && f.players[0].user != f.players[1].user && f.players[0].color != f.players[1].color
       && (forall k :: 0 <= k < |f.events| ==> RowHolds(f, k))
       && reg.configured(f.m.game, f.m.config).Some?
       && var rules := reg.configured(f.m.game, f.m.config).value;
          var game := rules.rebuild(Steps(f.events));
          && game.Ok? && game.value.revision == |Steps(f.events)|
          && SeatsAgree(f.m.game, rules.summary(game.value.state), |Steps(f.events)|, f.players)
          && RowAgrees(f.m, rules.summary(game.value.state), f.players, f.events)
          && (f.m.result.Some? ==> Decides(f.m.game, f.m.result.value))
          && SlotsAgree(t, id, f, f.m.status == Active && reg.single(f.m.game))
  }

  /** The match holds its two players' slots while it is active, and no other. */
  ghost predicate SlotsAgree(t: Tables, id: MatchId, f: File, seated: bool) {
    forall k :: (k in t.slots && t.slots[k] == id) <==> (seated && k.0 == f.m.game && Plays(f.players, k.1))
  }

  ghost predicate Plays(players: seq<Player>, user: UserId) {
    exists i :: IsPlayer(players, i, user)
  }

  lemma SlotsAsExpected(t: Tables, id: MatchId, f: File, seated: bool)
    requires TwoPlayers(f.players)
    ensures SlotsComplete(t, id, f, seated) <==> SlotsAgree(t, id, f, seated)
  {
    assert IsPlayer(f.players, 0, f.players[0].user) && IsPlayer(f.players, 1, f.players[1].user);
    var expected := ExpectedSlots(f, seated);
    forall k: (GameId, UserId) ensures k in expected <==> seated && k.0 == f.m.game && Plays(f.players, k.1) {
    }
    if SlotsAgree(t, id, f, seated) {
      forall k: (GameId, UserId) ensures k in SlotsOf(t, id) <==> k in expected {
        assert (k in t.slots && t.slots[k] == id) <==> (seated && k.0 == f.m.game && Plays(f.players, k.1));
      }
      assert SlotsOf(t, id) == expected;
    }
    if SlotsComplete(t, id, f, seated) {
      forall k: (GameId, UserId) ensures (k in t.slots && t.slots[k] == id) <==> (seated && k.0 == f.m.game && Plays(f.players, k.1)) {
        assert k in SlotsOf(t, id) <==> k in expected;
      }
    }
  }

  lemma WearsAsSeated(players: seq<Player>, user: UserId, c: Color)
    requires TwoPlayers(players)
    ensures Wears(players, user, c) <==> user == UserOf(players, c)
  {
    assert IsPlayer(players, 0, players[0].user) && IsPlayer(players, 1, players[1].user);
  }

  lemma SeatsAgreeAsFits(game: GameId, s: Summary, n: nat, players: seq<Player>)
    requires TwoPlayers(players)
    ensures SummaryFits(game, s, n, players) <==> SeatsAgree(game, s, n, players)
  {
    hide Wears, UserOf;
    if s.black.Some? {
      WearsAsSeated(players, s.black.value, Black);
    }
    if s.white.Some? {
      WearsAsSeated(players, s.white.value, White);
    }
  }

  lemma PlaysAsMember(players: seq<Player>, user: UserId)
    requires TwoPlayers(players)
    ensures Plays(players, user) <==> Member(players, user)
  {
    assert IsPlayer(players, 0, players[0].user) && IsPlayer(players, 1, players[1].user);
  }

  lemma RowAgreesAsFits(f: File, s: Summary)
    requires TwoPlayers(f.players) && f.m.revision <= MaximumMatchEventsFor(f.m.game)
    ensures var terminal := if f.events == [] then NoTerminal else TypeOf(f.events[|f.events| - 1].kind);
      LifecycleFits(f.m, s, terminal, f.players, f.events) <==> RowAgrees(f.m, s, f.players, f.events)
  {
    hide Plays, SeatOf;
    if f.m.winner.Some? {
      PlaysAsMember(f.players, f.m.winner.value);
    }
  }

  lemma LimitOf(game: GameId)
    ensures MaximumMatchEventsFor(game) == if game == FlightGame then 512 else 226
  {
  }

  lemma DecidesAsBelongs(game: GameId, result: Outcome)
    ensures ResultBelongs(game, result) <==> Decides(game, result)
  {
  }

  /** A match can be read if and only if everything stored about it is consistent: its rows numbered, in
      turn and by its players, its log replayable by the game's rules, and the match row, the seats and the
      active slots in agreement with what the replay leads to. */
  lemma ReadExactlyIfConsistent<S>(reg: Registry<S>, t: Tables, id: MatchId)
    ensures SnapshotOf(reg, t, id).Ok? <==> Consistent(reg, t, id)
  {
    hide ScanTo, SummaryFits, LifecycleFits, ResultBelongs, SlotsComplete, RowHolds, SeatsAgree, RowAgrees, Decides, SlotsAgree, FileOf, Steps,
      MaximumMatchEventsFor;
    if id in t.matches && TwoPlayers(FileOf(t, id).players) && reg.configured(FileOf(t, id).m.game, FileOf(t, id).m.config).Some? {
      var f := FileOf(t, id);
      var rules := reg.configured(f.m.game, f.m.config).value;
      LimitOf(f.m.game);
      ScanIsRowByRow(f, |f.events|);
      assert f.events[..|f.events|] == f.events;
      if rules.rebuild(Steps(f.events)).Ok? && f.m.revision == |f.events| <= MaximumMatchEventsFor(f.m.game) {
        var summary := rules.summary(rules.rebuild(Steps(f.events)).value.state);
        SeatsAgreeAsFits(f.m.game, summary, |Steps(f.events)|, f.players);
        RowAgreesAsFits(f, summary);
        SlotsAsExpected(t, id, f, f.m.status == Active && reg.single(f.m.game));
        if f.m.result.Some? {
          DecidesAsBelongs(f.m.game, f.m.result.value);
        }
      }
    }
  }
}
