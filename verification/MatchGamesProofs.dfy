/** All five games are lawful: whatever two players do through the service, the engine's replay,
    seats, turn, outcome and refusals are the ones the service's checks expect. */
module MatchGamesProofs {
  import opened Common
  import opened MatchModel
  import opened MatchFiles
  import opened MatchGames
  import CC = ChineseCheckersRules
  import ChineseCheckers
  import CCP = ChineseCheckersProofs
  import FC = FlightChess
  import FCP = FlightChessProofs
  import FCR = FlightChessRuns
  import G = Gomoku
  import GP = GomokuProofs
  import R = Reversi
  import RP = ReversiProofs
  import Rps
  import RpsProofs

  // ------------------------------------------------------------------------- shared steps

  lemma {:induction false} LoweredGrows<P>(log: GameEvents, payload: Payload -> Option<P>)
    requires log != [] && Lowered(Front(log), payload).Some? && payload(Last(log).payload).Some?
    ensures var e := GameEvent(Last(log).revision, Last(log).actor, payload(Last(log).payload).value);
      Lowered(log, payload) == Some(Lowered(Front(log), payload).value + [e])
  {
  }

  /** The seats a state may have bound: only the two players, each to its own colour. */
  ghost predicate Seated(users: Sides<Option<UserId>>, players: seq<Player>)
    requires TwoPlayers(players)
  {
    && (users.black.Some? ==> users.black.value == UserOf(players, Black))
    && (users.white.Some? ==> users.white.value == UserOf(players, White))
  }

  lemma SeatBound(users: Sides<Option<UserId>>, players: seq<Player>, actor: UserId, c: Color)
    requires TwoPlayers(players) && Member(players, actor) && ColorOf(players, actor) == c && Seated(users, players)
    ensures Seated(users.With(c, Some(actor)), players)
    ensures UserOf(players, c) == actor
    ensures users.Of(c.Opposite()) != Some(actor)
    ensures UserOf(players, Black) != UserOf(players, White)
    ensures Member(players, UserOf(players, Black)) && Member(players, UserOf(players, White))
  {
  }

  // ------------------------------------------------------------------------------ gomoku

  ghost predicate GomokuFits(players: seq<Player>, log: GameEvents, snap: Snap)
    requires TwoPlayers(players)
  {
    snap.state.GomokuState? && var s := snap.state.gomoku; var own := GameSnapshot(snap.revision, s);
      && Lowered(log, GomokuPayload).Some? && G.Rebuilt(Lowered(log, GomokuPayload).value) == Ok(own)
      && |Lowered(log, GomokuPayload).value| == |log| == snap.revision
      && G.Decodes(own) && Seated(s.users, players)
  }

  lemma GomokuEngineStep(players: seq<Player>, prev: Snap, action: Action, die: int, e: GameEvent<Payload>, next: Snap)
    requires TwoPlayers(players) && prev.state.GomokuState? && LiveStep(GomokuRules(), GomokuGame, players, prev, action, die, e, next)
    ensures action.GomokuAt? && Member(players, e.actor) && ColorOf(players, e.actor) == prev.state.gomoku.next
    ensures var reply := G.ApplyMove(GameSnapshot(prev.revision, prev.state.gomoku), e.actor, G.Point(action.x, action.y));
      && reply.Ok? && e == GameEvent(reply.value.event.revision, reply.value.event.actor, GomokuStep(reply.value.event.payload))
      && next == GameSnapshot(reply.value.next.revision, GomokuState(reply.value.next.state))
  {
    hide G.ApplyMove, ColorOf, Member;
  }

  lemma {:induction false} GomokuRebuiltGrows(es: seq<G.Event>, prev: G.Snap, e: G.Event, next: G.Snap)
    requires G.Rebuilt(es) == Ok(prev) && e.revision == |es| + 1 && G.ReplayEvent(prev, e) == Ok(next)
    ensures G.Rebuilt(es + [e]) == Ok(next)
  {
    hide G.ReplayEvent, G.InitialSnapshot;
    assert (es + [e])[..|es|] == es;
  }

  lemma GomokuStepFits(players: seq<Player>, log: GameEvents, prev: Snap, action: Action, die: int, e: GameEvent<Payload>, next: Snap)
    requires TwoPlayers(players) && GomokuFits(players, log, prev)
    requires LiveStep(GomokuRules(), GomokuGame, players, prev, action, die, e, next)
    ensures GomokuFits(players, log + [e], next)
  {
    hide G.Decodes, G.AfterStone, G.ReplayEvent, Lowered, UserOf, ColorOf, Member, Seated, LiveStep, GomokuRules, TwoPlayers,
         G.Rebuilt;
    GomokuEngineStep(players, prev, action, die, e, next);
    var own := GameSnapshot(prev.revision, prev.state.gomoku);
    var point := G.Point(action.x, action.y);
    GP.MovePassesValidator(own, e.actor, point);
    GP.ReplayOneMove(own, e.actor, point);
    var a := G.ApplyMove(own, e.actor, point).value;
    SeatBound(own.state.users, players, e.actor, own.state.next);
    GomokuBinds(own, e.actor, point);
    assert Front(log + [e]) == log && Last(log + [e]) == e;
    LoweredGrows(log + [e], GomokuPayload);
    var es := Lowered(log, GomokuPayload).value;
    GomokuRebuiltGrows(es, own, a.event, a.next);
  }

  lemma GomokuBinds(own: G.Snap, actor: UserId, point: G.Point)
    requires G.ApplyMove(own, actor, point).Ok?
    ensures var t := G.ApplyMove(own, actor, point).value.next.state;
      t.users == own.state.users || t.users == own.state.users.With(own.state.next, Some(actor))
  {
    hide G.Decodes, G.Wins, G.Stones;
  }

  lemma GomokuStart(players: seq<Player>, snap: Snap)
    requires TwoPlayers(players) && GomokuRebuild([]) == Ok(snap)
    ensures GomokuFits(players, [], snap)
  {
    GP.InitialPassesValidator();
    hide G.Decodes;
  }

  lemma {:induction false} GomokuReached(players: seq<Player>, log: GameEvents, snap: Snap)
    requires TwoPlayers(players) && Reached(GomokuRules(), GomokuGame, players, log, snap)
    ensures GomokuFits(players, log, snap)
    decreases |log|
  {
    hide LiveStep, GomokuFits, GomokuRebuild, TwoPlayers;
    if log == [] {
      GomokuStart(players, snap);
    } else {
      hide GomokuRules;
      var prev, action, die :|
        LiveStep(GomokuRules(), GomokuGame, players, prev, action, die, Last(log), snap)
        && Reached(GomokuRules(), GomokuGame, players, Front(log), prev);
      GomokuReached(players, Front(log), prev);
      GomokuStepFits(players, Front(log), prev, action, die, Last(log), snap);
      assert Front(log) + [Last(log)] == log;
    }
  }

  lemma GomokuDecoded(own: G.Snap)
    requires G.Decodes(own)
    ensures var s, n := own.state, own.revision;
      && 0 <= n <= G.BOARD_CELLS && s.next == Parity(n)
      && (s.users.black.Some? <==> n >= 1) && (s.users.white.Some? <==> n >= 2)
      && (s.active ==> s.result.None? && s.winner.None? && n < G.BOARD_CELLS)
      && (!s.active ==> n > 0)
      && (!s.active && s.result != Some(Draw) ==>
           s.result == Some(Five) && s.winner.Some? && (s.winner == s.users.black || s.winner == s.users.white))
      && (!s.active && s.result == Some(Draw) ==> s.winner.None?)
  {
    hide G.HasFive, G.Count;
    GP.AtMostAllStones(own.state.board, G.BOARD_CELLS);
    if own.revision == 0 {
      EmptyIsActive(own);
    }
  }

  lemma EmptyIsActive(own: G.Snap)
    requires G.Decodes(own) && own.revision == 0
    ensures own.state.active
  {
    hide G.HasFive, G.Count;
  }

  lemma GomokuFacts(players: seq<Player>, log: GameEvents, snap: Snap)
    requires TwoPlayers(players) && GomokuFits(players, log, snap)
    ensures Facts(GomokuRules(), GomokuGame, players, log, snap)
  {
    hide G.Decodes, Lowered, G.Rebuilt, UserOf, Member;
    GomokuDecoded(GameSnapshot(snap.revision, snap.state.gomoku));
    SeatsAreMembers(players, snap.state.gomoku.users);
  }

  lemma SeatsAreMembers(players: seq<Player>, users: Sides<Option<UserId>>)
    requires TwoPlayers(players) && Seated(users, players)
    ensures users.black.Some? ==> users.black == Some(UserOf(players, Black)) && Member(players, users.black.value)
    ensures users.white.Some? ==> users.white == Some(UserOf(players, White)) && Member(players, users.white.value)
  {
  }

  lemma GomokuAnswers(players: seq<Player>, log: GameEvents, snap: Snap, actor: UserId, action: Action, die: int)
    requires TwoPlayers(players) && GomokuFits(players, log, snap) && MayAsk(GomokuRules(), GomokuGame, players, snap, actor, action, die)
    ensures Answers(GomokuRules(), GomokuGame, players, snap, actor, action, die)
  {
    hide G.Decodes, G.Wins, G.Stones, Lowered, G.Rebuilt, Seated, SeatOf;
  }

  lemma GomokuIsLawful()
    ensures LawfulRules(GomokuRules(), GomokuGame) && GomokuRules().rebuild([]).Ok?
  {
    var rules := GomokuRules();
    assert rules.rebuild([]).Ok?;
    hide Facts, Answers, MayAsk, GomokuFits, Reached, GomokuRules, TwoPlayers;
    forall players, log, snap | TwoPlayers(players) && Reached(rules, GomokuGame, players, log, snap)
      ensures Facts(rules, GomokuGame, players, log, snap)
    {
      GomokuReached(players, log, snap);
      GomokuFacts(players, log, snap);
    }
    forall players, log, snap, actor, action, die
      | TwoPlayers(players) && Reached(rules, GomokuGame, players, log, snap) && MayAsk(rules, GomokuGame, players, snap, actor, action, die)
      ensures Answers(rules, GomokuGame, players, snap, actor, action, die)
    {
      GomokuReached(players, log, snap);
      GomokuAnswers(players, log, snap, actor, action, die);
    }
  }

  // ----------------------------------------------------------------------------- reversi

  ghost predicate ReversiFits(players: seq<Player>, log: GameEvents, snap: Snap)
    requires TwoPlayers(players)
  {
    snap.state.ReversiState? && var s := snap.state.reversi; var own := GameSnapshot(snap.revision, s);
      && Lowered(log, ReversiPayload).Some? && R.Rebuilt(Lowered(log, ReversiPayload).value) == Ok(own)
      && |Lowered(log, ReversiPayload).value| == |log| == snap.revision
      && RP.Reachable(own) && Seated(s.users, players)
  }

  lemma ReversiEngineStep(players: seq<Player>, prev: Snap, action: Action, die: int, e: GameEvent<Payload>, next: Snap)
    requires TwoPlayers(players) && prev.state.ReversiState? && LiveStep(ReversiRules(), ReversiGame, players, prev, action, die, e, next)
    ensures action.ReversiAt? && Member(players, e.actor) && Some(ColorOf(players, e.actor)) == prev.state.reversi.next
    ensures var reply := R.ApplyMove(GameSnapshot(prev.revision, prev.state.reversi), e.actor, R.Point(action.x, action.y));
      && reply.Ok? && e == GameEvent(reply.value.event.revision, reply.value.event.actor, ReversiStep(reply.value.event.payload))
      && next == GameSnapshot(reply.value.next.revision, ReversiState(reply.value.next.state))
  {
    hide R.ApplyMove, ColorOf, Member;
  }

  lemma ReversiBinds(own: R.Snap, actor: UserId, point: R.Point)
    requires R.ApplyMove(own, actor, point).Ok?
    ensures var t := R.ApplyMove(own, actor, point).value.next.state;
      own.state.next.Some? && t.users == own.state.users.With(own.state.next.value, Some(actor))
  {
    hide R.Decodes, R.Legal, R.Flipped, R.Counts, R.Flips;
    R.SomeoneIsToMove(own);
  }

  lemma {:induction false} ReversiRebuiltGrows(es: seq<R.Event>, prev: R.Snap, e: R.Event, next: R.Snap)
    requires R.Rebuilt(es) == Ok(prev) && e.revision == |es| + 1 && R.ReplayEvent(prev, e) == Ok(next)
    ensures R.Rebuilt(es + [e]) == Ok(next)
  {
    hide R.ReplayEvent, R.InitialState;
    assert (es + [e])[..|es|] == es;
  }

  lemma ReversiStepFits(players: seq<Player>, log: GameEvents, prev: Snap, action: Action, die: int, e: GameEvent<Payload>, next: Snap)
    requires TwoPlayers(players) && ReversiFits(players, log, prev)
    requires LiveStep(ReversiRules(), ReversiGame, players, prev, action, die, e, next)
    ensures ReversiFits(players, log + [e], next)
  {
    hide RP.Reachable, R.ApplyMove, R.ReplayEvent, Lowered, UserOf, ColorOf, Member, Seated, LiveStep, ReversiRules, TwoPlayers, R.Rebuilt;
    ReversiEngineStep(players, prev, action, die, e, next);
    var own := GameSnapshot(prev.revision, prev.state.reversi);
    var point := R.Point(action.x, action.y);
    RP.MovePassesValidator(own, e.actor, point);
    RP.ReplayOneMove(own, e.actor, point);
    var a := R.ApplyMove(own, e.actor, point).value;
    ReversiBinds(own, e.actor, point);
    SeatBound(own.state.users, players, e.actor, own.state.next.value);
    assert Front(log + [e]) == log && Last(log + [e]) == e;
    LoweredGrows(log + [e], ReversiPayload);
    var es := Lowered(log, ReversiPayload).value;
    ReversiRebuiltGrows(es, own, a.event, a.next);
  }

  lemma ReversiStart(players: seq<Player>, snap: Snap)
    requires TwoPlayers(players) && ReversiRebuild([]) == Ok(snap)
    ensures ReversiFits(players, [], snap)
  {
    RP.InitialPassesValidator();
    hide RP.Reachable, R.Legal, R.Counts, R.InitialBoard;
  }

  lemma ReversiDecoded(own: R.Snap)
    requires RP.Reachable(own)
    ensures var s, n := own.state, own.revision;
      && 0 <= n <= 60 && (s.active ==> s.next.Some? && s.result.None? && s.winner.None?)
      && (n == 0 ==> s.active && s.users.black.None? && s.next == Some(Black))
      && (s.users.black.Some? <==> n >= 1) && (s.users.white.Some? <==> n >= 2)
      && (!s.active && s.result != Some(Draw) ==>
           s.result == Some(Majority) && s.winner.Some? && (s.winner == s.users.black || s.winner == s.users.white))
      && (!s.active && s.result == Some(Draw) ==> s.winner.None?)
  {
    hide R.Legal, R.Counts, R.InitialBoard;
  }

  lemma ReversiFacts(players: seq<Player>, log: GameEvents, snap: Snap)
    requires TwoPlayers(players) && ReversiFits(players, log, snap)
    ensures Facts(ReversiRules(), ReversiGame, players, log, snap)
  {
    hide RP.Reachable, Lowered, R.Rebuilt, UserOf, Member;
    ReversiDecoded(GameSnapshot(snap.revision, snap.state.reversi));
    SeatsAreMembers(players, snap.state.reversi.users);
  }

  lemma ReversiTurn(own: R.Snap, actor: UserId, point: R.Point)
    requires R.Decodes(own)
    ensures var reply := R.ApplyMove(own, actor, point);
      && (reply.Err? ==> reply.error == InvalidAction || reply.error == NotYourTurn)
      && (reply.Ok? ==>
           var t := reply.value.next.state;
           && point.Valid() && own.state.next.Some?
           && reply.value.event == GameEvent(own.revision + 1, actor, R.MoveAccepted(point.x, point.y, own.state.next.value, actor))
           && reply.value.next.revision == own.revision + 1
           && (!t.active ==> t.result == Some(Draw) || t.result == Some(Majority))
           && (!t.active && t.result == Some(Draw) ==> t.winner == own.state.winner) && own.state.winner.None?)
  {
    hide R.Decodes, R.Legal, R.Flipped, R.Counts, R.Flips;
    if own.state.active {
      RP.FactsOf(own);
      var c := own.state.next.value;
      if R.Flips(own.state.board, point, c) != [] {
        R.FlipsNeedAPoint(own.state.board, point, c);
      }
    }
  }

  lemma ReversiAnswers(players: seq<Player>, log: GameEvents, snap: Snap, actor: UserId, action: Action, die: int)
    requires TwoPlayers(players) && ReversiFits(players, log, snap) && MayAsk(ReversiRules(), ReversiGame, players, snap, actor, action, die)
    ensures Answers(ReversiRules(), ReversiGame, players, snap, actor, action, die)
  {
    hide R.Decodes, R.ApplyMove, Lowered, R.Rebuilt, Seated, SeatOf;
    ReversiTurn(GameSnapshot(snap.revision, snap.state.reversi), actor, R.Point(action.x, action.y));
  }

  lemma {:induction false} ReversiReached(players: seq<Player>, log: GameEvents, snap: Snap)
    requires TwoPlayers(players) && Reached(ReversiRules(), ReversiGame, players, log, snap)
    ensures ReversiFits(players, log, snap)
    decreases |log|
  {
    hide LiveStep, ReversiFits, ReversiRebuild, TwoPlayers;
    if log == [] {
      ReversiStart(players, snap);
    } else {
      hide ReversiRules;
      var prev, action, die :|
        LiveStep(ReversiRules(), ReversiGame, players, prev, action, die, Last(log), snap)
        && Reached(ReversiRules(), ReversiGame, players, Front(log), prev);
      ReversiReached(players, Front(log), prev);
      ReversiStepFits(players, Front(log), prev, action, die, Last(log), snap);
      assert Front(log) + [Last(log)] == log;
    }
  }

  lemma ReversiIsLawful()
    ensures LawfulRules(ReversiRules(), ReversiGame) && ReversiRules().rebuild([]).Ok?
  {
    hide R.InitialState;
    var rules := ReversiRules();
    assert rules.rebuild([]).Ok?;
    hide Facts, Answers, MayAsk, ReversiFits, Reached, ReversiRules, TwoPlayers;
    forall players, log, snap | TwoPlayers(players) && Reached(rules, ReversiGame, players, log, snap)
      ensures Facts(rules, ReversiGame, players, log, snap)
    {
      ReversiReached(players, log, snap);
      ReversiFacts(players, log, snap);
    }
    forall players, log, snap, actor, action, die
      | TwoPlayers(players) && Reached(rules, ReversiGame, players, log, snap) && MayAsk(rules, ReversiGame, players, snap, actor, action, die)
      ensures Answers(rules, ReversiGame, players, snap, actor, action, die)
    {
      ReversiReached(players, log, snap);
      ReversiAnswers(players, log, snap, actor, action, die);
    }
  }

  // --------------------------------------------------------------------- Chinese checkers

  ghost predicate CheckersFits(players: seq<Player>, log: GameEvents, snap: Snap)
    requires TwoPlayers(players)
  {
    snap.state.CheckersState? && var s := snap.state.checkers; var own := GameSnapshot(snap.revision, s);
      && Lowered(log, CheckersPayload).Some? && CC.Rebuilt(Lowered(log, CheckersPayload).value) == Ok(own)
      && |Lowered(log, CheckersPayload).value| == |log| == snap.revision
      && CC.Decodes(own) && Seated(s.users, players) && s.result != Some(Resignation)
  }

  lemma CheckersEngineStep(players: seq<Player>, prev: Snap, action: Action, die: int, e: GameEvent<Payload>, next: Snap)
    requires TwoPlayers(players) && prev.state.CheckersState? && LiveStep(CheckersRules(), CheckersGame, players, prev, action, die, e, next)
    ensures action.CheckersPath? && Member(players, e.actor) && ColorOf(players, e.actor) == Parity(prev.revision)
    ensures var reply := CC.ApplyMove(GameSnapshot(prev.revision, prev.state.checkers), e.actor, action.path);
      && reply.Ok? && e == GameEvent(reply.value.event.revision, reply.value.event.actor, CheckersStep(reply.value.event.payload))
      && next == GameSnapshot(reply.value.next.revision, CheckersState(reply.value.next.state))
  {
    hide CC.ApplyMove, ColorOf, Member;
  }

  lemma CheckersTurn(own: CC.Snap, actor: UserId, path: seq<int>)
    requires CC.Decodes(own) && own.state.active
    ensures var reply := CC.ApplyMove(own, actor, path);
      && own.state.next == Parity(own.revision) && own.state.result.None?
      && (reply.Err? ==> reply.error == InvalidAction || reply.error == NotYourTurn || reply.error == InvalidMove)
      && (reply.Ok? ==>
           var t := reply.value.next.state;
           && (t.users == own.state.users || t.users == own.state.users.With(own.state.next, Some(actor)))
           && reply.value.event == GameEvent(own.revision + 1, actor, CC.MoveAccepted(path, own.state.next, actor))
           && reply.value.next.revision == own.revision + 1
           && (if t.active then t.result == own.state.result else t.result == Some(Goal) && t.winner == Some(actor)))
  {
    hide CC.CompletedCamp, CC.Pieces, ChineseCheckers.LegalPath, CC.DecodesPath;
  }

  lemma {:induction false} CheckersRebuiltGrows(es: seq<CC.Event>, prev: CC.Snap, e: CC.Event, next: CC.Snap)
    requires CC.Rebuilt(es) == Ok(prev) && e.revision == |es| + 1 && CC.ReplayEvent(prev, e) == Ok(next)
    ensures CC.Rebuilt(es + [e]) == Ok(next)
  {
    hide CC.ReplayEvent;
    assert (es + [e])[..|es|] == es;
  }

  lemma CheckersStepFits(players: seq<Player>, log: GameEvents, prev: Snap, action: Action, die: int, e: GameEvent<Payload>, next: Snap)
    requires TwoPlayers(players) && CheckersFits(players, log, prev)
    requires LiveStep(CheckersRules(), CheckersGame, players, prev, action, die, e, next)
    ensures CheckersFits(players, log + [e], next)
  {
    CheckersIsActive(players, prev, action, die, e, next);
    hide CC.Decodes, CC.ApplyMove, CC.ReplayEvent, Lowered, UserOf, ColorOf, Member, Seated, LiveStep, CheckersRules, TwoPlayers, CCP.WingsEmpty, CCP.Home, CC.Rebuilt;
    CheckersEngineStep(players, prev, action, die, e, next);
    var own := GameSnapshot(prev.revision, prev.state.checkers);
    CCP.MovePassesValidator(own, e.actor, action.path);
    CCP.ReplayOneMove(own, e.actor, action.path);
    CheckersTurn(own, e.actor, action.path);
    var a := CC.ApplyMove(own, e.actor, action.path).value;
    SeatBound(own.state.users, players, e.actor, own.state.next);
    assert Front(log + [e]) == log && Last(log + [e]) == e;
    LoweredGrows(log + [e], CheckersPayload);
    var es := Lowered(log, CheckersPayload).value;
    CheckersRebuiltGrows(es, own, a.event, a.next);
  }

  lemma CheckersIsActive(players: seq<Player>, prev: Snap, action: Action, die: int, e: GameEvent<Payload>, next: Snap)
    requires TwoPlayers(players) && prev.state.CheckersState? && LiveStep(CheckersRules(), CheckersGame, players, prev, action, die, e, next)
    ensures prev.state.checkers.active
  {
    hide CheckersApply, ColorOf, Member;
  }

  lemma CheckersStart(players: seq<Player>, snap: Snap)
    requires TwoPlayers(players) && CheckersRebuild([]) == Ok(snap)
    ensures CheckersFits(players, [], snap)
  {
    CCP.InitialPassesValidator();
    hide CC.Decodes;
  }

  lemma CheckersDecoded(own: CC.Snap)
    requires CC.Decodes(own) && own.state.result != Some(Resignation)
    ensures var s, n := own.state, own.revision;
      && 0 <= n && s.next == Parity(n)
      && (s.users.black.Some? <==> n >= 1) && (s.users.white.Some? <==> n >= 2)
      && (s.active ==> s.result.None? && s.winner.None?)
      && (!s.active ==> n > 0 && s.result == Some(Goal) && s.winner.Some? && (s.winner == s.users.black || s.winner == s.users.white))
  {
    hide CC.CompletedCamp, CC.Pieces;
  }

  lemma CheckersFacts(players: seq<Player>, log: GameEvents, snap: Snap)
    requires TwoPlayers(players) && CheckersFits(players, log, snap)
    ensures Facts(CheckersRules(), CheckersGame, players, log, snap)
  {
    hide CC.Decodes, Lowered, CC.Rebuilt, UserOf, Member;
    CheckersDecoded(GameSnapshot(snap.revision, snap.state.checkers));
    SeatsAreMembers(players, snap.state.checkers.users);
  }

  lemma CheckersAnswers(players: seq<Player>, log: GameEvents, snap: Snap, actor: UserId, action: Action, die: int)
    requires TwoPlayers(players) && CheckersFits(players, log, snap) && MayAsk(CheckersRules(), CheckersGame, players, snap, actor, action, die)
    ensures Answers(CheckersRules(), CheckersGame, players, snap, actor, action, die)
  {
    hide CC.Decodes, CC.ApplyMove, Lowered, CC.Rebuilt, Seated, SeatOf;
    CheckersTurn(GameSnapshot(snap.revision, snap.state.checkers), actor, action.path);
  }

  lemma {:induction false} CheckersReached(players: seq<Player>, log: GameEvents, snap: Snap)
    requires TwoPlayers(players) && Reached(CheckersRules(), CheckersGame, players, log, snap)
    ensures CheckersFits(players, log, snap)
    decreases |log|
  {
    hide LiveStep, CheckersFits, CheckersRebuild, TwoPlayers;
    if log == [] {
      CheckersStart(players, snap);
    } else {
      hide CheckersRules;
      var prev, action, die :|
        LiveStep(CheckersRules(), CheckersGame, players, prev, action, die, Last(log), snap)
        && Reached(CheckersRules(), CheckersGame, players, Front(log), prev);
      CheckersReached(players, Front(log), prev);
      CheckersStepFits(players, Front(log), prev, action, die, Last(log), snap);
      assert Front(log) + [Last(log)] == log;
    }
  }

  lemma CheckersIsLawful()
    ensures LawfulRules(CheckersRules(), CheckersGame) && CheckersRules().rebuild([]).Ok?
  {
    var rules := CheckersRules();
    assert rules.rebuild([]).Ok?;
    hide Facts, Answers, MayAsk, CheckersFits, Reached, CheckersRules, TwoPlayers;
    forall players, log, snap | TwoPlayers(players) && Reached(rules, CheckersGame, players, log, snap)
      ensures Facts(rules, CheckersGame, players, log, snap)
    {
      CheckersReached(players, log, snap);
      CheckersFacts(players, log, snap);
    }
    forall players, log, snap, actor, action, die
      | TwoPlayers(players) && Reached(rules, CheckersGame, players, log, snap) && MayAsk(rules, CheckersGame, players, snap, actor, action, die)
      ensures Answers(rules, CheckersGame, players, snap, actor, action, die)
    {
      CheckersReached(players, log, snap);
      CheckersAnswers(players, log, snap, actor, action, die);
    }
  }

  // ------------------------------------------------------------------------- flight chess

  ghost predicate FlightFits(players: seq<Player>, log: GameEvents, snap: Snap)
    requires TwoPlayers(players)
  {
    snap.state.FlightState? && var s := snap.state.flight; var own := GameSnapshot(snap.revision, s);
      && Lowered(log, FlightPayload).Some? && FC.Rebuilt(Lowered(log, FlightPayload).value) == Ok(own)
      && |Lowered(log, FlightPayload).value| == |log|
      && FCR.Sound(FCR.Game(Lowered(log, FlightPayload).value, own)) && Seated(s.users, players)
      && (if log == [] then own == FC.InitialSnapshot() else s.users.black.Some?)
  }

  // The engine's request behind a service action; the service plays today's rules only.
  function FlightRequest(actor: UserId, action: Action, die: int): FCR.Request
    requires action.FlightRoll? || action.FlightPiece?
  {
    if action.FlightRoll? then FCR.Roll(actor, die, true, true, false) else FCR.Move(actor, action.pieceIndex, FCR.Today)
  }

  lemma FlightEngineStep(players: seq<Player>, prev: Snap, action: Action, die: int, e: GameEvent<Payload>, next: Snap)
    requires TwoPlayers(players) && prev.state.FlightState? && LiveStep(FlightRules(), FlightGame, players, prev, action, die, e, next)
    ensures (action.FlightRoll? || action.FlightPiece?) && Member(players, e.actor) && ColorOf(players, e.actor) == prev.state.flight.next
    ensures FCR.IsCurrent(FlightRequest(e.actor, action, die)) && FlightRequest(e.actor, action, die).actor == e.actor
    ensures var reply := FCR.Answer(GameSnapshot(prev.revision, prev.state.flight), FlightRequest(e.actor, action, die));
      && reply.Ok? && e == GameEvent(reply.value.event.revision, reply.value.event.actor, FlightStep(reply.value.event.payload))
      && next == GameSnapshot(reply.value.next.revision, FlightState(reply.value.next.state))
  {
    hide FC.ApplyMove, FC.ApplyRoll, ColorOf, Member;
  }

  lemma FlightBinds(own: FC.Snap, r: FCR.Request)
    requires FCR.Answer(own, r).Ok?
    ensures var t := FCR.Answer(own, r).value.next.state;
      && FCR.Answer(own, r).value.event.actor == r.actor
      && (t.users == own.state.users || t.users == own.state.users.With(own.state.next, Some(r.actor)))
      && t.users.Of(own.state.next).Some?
  {
    hide FC.ResolveMove, FC.ValidState, FC.Destinations, FC.CapturedSlots, FC.MovableSlots, FC.SentHome, FC.AllFinished;
  }

  lemma {:induction false} FlightRebuiltGrows(es: seq<FC.Event>, prev: FC.Snap, e: FC.Event, next: FC.Snap)
    requires FC.Rebuilt(es) == Ok(prev) && e.revision == |es| + 1 && FC.ReplayEvent(prev, e) == Ok(next)
    ensures FC.Rebuilt(es + [e]) == Ok(next)
  {
    hide FC.ReplayEvent;
    assert (es + [e])[..|es|] == es;
  }

  lemma FlightLogGrows(es: seq<FC.Event>, own: FC.Snap, r: FCR.Request)
    requires FCR.Sound(FCR.Game(es, own)) && FC.Rebuilt(es) == Ok(own) && FCR.IsCurrent(r) && FCR.Answer(own, r).Ok?
    ensures var a := FCR.Answer(own, r).value;
      FCR.Sound(FCR.Game(es + [a.event], a.next)) && FC.Rebuilt(es + [a.event]) == Ok(a.next)
  {
    hide FCR.Sound, FCR.Answer, FC.ReplayEvent, FC.Rebuilt;
    FCR.StepKeepsSound(FCR.Game(es, own), r);
    FCR.TodayAnswersExactlyWithinCap(own, r);
    FCR.ReplayOneEvent(FCR.Game(es, own), r);
    FCR.AnswerRevision(own, r);
    SoundRevision(FCR.Game(es, own));
    var a := FCR.Answer(own, r).value;
    FlightRebuiltGrows(es, own, a.event, a.next);
  }

  lemma FlightParts(players: seq<Player>, log: GameEvents, snap: Snap)
    requires TwoPlayers(players) && FlightFits(players, log, snap)
    ensures snap.state.FlightState? && Lowered(log, FlightPayload).Some?
    ensures var own, es := GameSnapshot(snap.revision, snap.state.flight), Lowered(log, FlightPayload).value;
      && |es| == |log| && FC.Rebuilt(es) == Ok(own) && FCR.Sound(FCR.Game(es, own)) && Seated(own.state.users, players)
      && (if log == [] then own.state.next == Black else own.state.users.black.Some?)
  {
    FlightOpener(players, log, snap);
    hide FCR.Sound, FC.Rebuilt, Seated, Lowered, FC.InitialSnapshot;
  }

  lemma FlightWhole(players: seq<Player>, log: GameEvents, snap: Snap, es: seq<FC.Event>)
    requires TwoPlayers(players) && log != [] && snap.state.FlightState? && Lowered(log, FlightPayload) == Some(es) && |es| == |log|
    requires var own := GameSnapshot(snap.revision, snap.state.flight);
      FC.Rebuilt(es) == Ok(own) && FCR.Sound(FCR.Game(es, own)) && Seated(own.state.users, players) && own.state.users.black.Some?
    ensures FlightFits(players, log, snap)
  {
    hide FCR.Sound, FC.Rebuilt, Seated, Lowered, FC.InitialSnapshot;
  }

  lemma FlightLowered(log: GameEvents, es: seq<FC.Event>, e: GameEvent<Payload>)
    requires Lowered(log, FlightPayload) == Some(es) && |es| == |log| && e.payload.FlightStep?
    ensures Lowered(log + [e], FlightPayload) == Some(es + [GameEvent(e.revision, e.actor, e.payload.flight)])
  {
    hide Lowered;
    assert Front(log + [e]) == log && Last(log + [e]) == e;
    LoweredGrows(log + [e], FlightPayload);
  }

  lemma FlightSeats(players: seq<Player>, before: Sides<Option<UserId>>, after: Sides<Option<UserId>>, actor: UserId, c: Color, first: bool)
    requires TwoPlayers(players) && Member(players, actor) && ColorOf(players, actor) == c && Seated(before, players)
    requires (after == before || after == before.With(c, Some(actor))) && after.Of(c).Some? && (if first then c == Black else before.black.Some?)
    ensures Seated(after, players) && after.black.Some?
  {
    hide Seated, ColorOf, Member, TwoPlayers;
    SeatBound(before, players, actor, c);
  }

  lemma FlightStepFits(players: seq<Player>, log: GameEvents, prev: Snap, action: Action, die: int, e: GameEvent<Payload>, next: Snap)
    requires TwoPlayers(players) && FlightFits(players, log, prev)
    requires LiveStep(FlightRules(), FlightGame, players, prev, action, die, e, next)
    ensures FlightFits(players, log + [e], next)
  {
    hide *;
    FlightParts(players, log, prev);
    FlightEngineStep(players, prev, action, die, e, next);
    var own := GameSnapshot(prev.revision, prev.state.flight);
    var es := Lowered(log, FlightPayload).value;
    var r := FlightRequest(e.actor, action, die);
    FlightBinds(own, r);
    FlightLogGrows(es, own, r);
    var a := FCR.Answer(own, r).value;
    FlightSeats(players, own.state.users, a.next.state.users, e.actor, own.state.next, log == []);
    FlightLowered(log, es, e);
    FlightWhole(players, log + [e], next, es + [a.event]);
  }

  lemma SoundRevision(g: FCR.Game)
    requires FCR.Sound(g)
    ensures g.snap.revision == |g.log| && FC.ValidState(g.snap.state)
  {
    hide FC.ValidState, FCR.NoSharedCell, FCR.Balanced, FCR.Launches, FCR.Moves;
  }

  lemma FlightOpener(players: seq<Player>, log: GameEvents, prev: Snap)
    requires TwoPlayers(players) && FlightFits(players, log, prev)
    ensures log == [] ==> prev.state.flight.next == Black
    ensures log != [] ==> prev.state.flight.users.black.Some?
  {
    hide FCR.Sound, FC.Rebuilt, Seated;
  }

  lemma FlightStart(players: seq<Player>, snap: Snap)
    requires TwoPlayers(players) && FlightRebuild([]) == Ok(snap)
    ensures FlightFits(players, [], snap)
  {
    FCR.InitialIsSound();
    hide FCR.Sound;
  }

  lemma FlightDecoded(own: FC.Snap)
    requires FC.ValidState(own.state)
    ensures var s := own.state;
      && (s.active ==> s.result.None? && s.winner.None?)
      && (!s.active ==> s.result == Some(Goal) && s.winner.Some? && (s.winner == s.users.black || s.winner == s.users.white))
  {
    hide FC.AllFinished, FC.MovableSlots, FC.ValidPieces;
  }

  lemma FlightFacts(players: seq<Player>, log: GameEvents, snap: Snap)
    requires TwoPlayers(players) && FlightFits(players, log, snap)
    ensures Facts(FlightRules(), FlightGame, players, log, snap)
  {
    hide FC.ValidState, FCR.Sound, Lowered, FC.Rebuilt, UserOf, Member;
    SoundRevision(FCR.Game(Lowered(log, FlightPayload).value, GameSnapshot(snap.revision, snap.state.flight)));
    FlightDecoded(GameSnapshot(snap.revision, snap.state.flight));
    SeatsAreMembers(players, snap.state.flight.users);
  }

  /** Within the event budget the capture cap is out of reach, so the engine refuses only what
      the rules refuse. */
  lemma FlightRefusals(g: FCR.Game, r: FCR.Request)
    requires FCR.Sound(g) && g.snap.revision < MAXIMUM_FLIGHT_CHESS_EVENTS && g.snap.state.active && FCR.IsCurrent(r)
    ensures FCR.Answer(g.snap, r).Err? ==> FCR.Answer(g.snap, r).error in {InvalidAction, InvalidPhase, InvalidMove, NotYourTurn}
  {
    FCR.SoundBoundsCaptures(g);
    hide FCR.Sound, FC.ValidState, FC.MovableSlots, FC.Destinations, FC.AfterMove, FC.CapturedSlots, FC.ResolveMove;
    SoundRevision(g);
    var s := g.snap.state;
    var bound := FC.Bind(s, r.actor);
    if bound.Ok? {
      match r
      case Roll(actor, value, _, _, _) =>
        if s.phase == FC.AwaitingRoll && 1 <= value <= 6 {
          FCP.EveryRollIsAccepted(g.snap, actor, value, true, true);
        }
      case Move(actor, pieceIndex, _) =>
        if s.phase == FC.AwaitingMove && 0 <= pieceIndex < FC.PIECE_COUNT {
          FlightPieces(s);
          if FC.ResolveMove(s.next, s.pieces.Of(s.next)[pieceIndex], s.dice).Some? {
            FCP.LegalMoveIsAccepted(g.snap, actor, pieceIndex, true, true);
          }
        }
    }
  }

  lemma FlightPieces(s: FC.State)
    requires FC.ValidState(s)
    ensures |s.pieces.black| == |s.pieces.white| == FC.PIECE_COUNT
  {
  }

  /** A roll never ends the game; a move ends it only for its player. */
  lemma FlightEnding(own: FC.Snap, r: FCR.Request)
    requires FCR.Answer(own, r).Ok? && FCR.IsCurrent(r)
    ensures var t := FCR.Answer(own, r).value.next.state;
      !t.active ==> r.Move? && t.result == Some(Goal) && t.winner == Some(r.actor)
  {
    hide FC.ResolveMove, FC.ValidState, FC.Destinations, FC.CapturedSlots, FC.MovableSlots, FC.SentHome, FC.AllFinished;
  }

  lemma FlightAnswers(players: seq<Player>, log: GameEvents, snap: Snap, actor: UserId, action: Action, die: int)
    requires TwoPlayers(players) && FlightFits(players, log, snap) && MayAsk(FlightRules(), FlightGame, players, snap, actor, action, die)
    ensures Answers(FlightRules(), FlightGame, players, snap, actor, action, die)
  {
    hide FCR.Sound, FC.ApplyMove, FC.ApplyRoll, Lowered, FC.Rebuilt, Seated, SeatOf, FC.ValidPiece, FC.ValidIndices;
    var own := GameSnapshot(snap.revision, snap.state.flight);
    var r := FlightRequest(actor, action, die);
    FlightRefusals(FCR.Game(Lowered(log, FlightPayload).value, own), r);
    if FCR.Answer(own, r).Ok? {
      FlightEnding(own, r);
      match action
      case FlightRoll => FCR.RollFacts(own, actor, die, true, true);
      case FlightPiece(pieceIndex) => FCR.MoveFacts(own, actor, pieceIndex, true, true);
    }
    hide FC.ValidState, FCR.OutOf, FCR.NoSharedCell;
  }

  lemma {:induction false} FlightReached(players: seq<Player>, log: GameEvents, snap: Snap)
    requires TwoPlayers(players) && Reached(FlightRules(), FlightGame, players, log, snap)
    ensures FlightFits(players, log, snap)
    decreases |log|
  {
    hide LiveStep, FlightFits, FlightRebuild, TwoPlayers;
    if log == [] {
      FlightStart(players, snap);
    } else {
      hide FlightRules;
      var prev, action, die :|
        LiveStep(FlightRules(), FlightGame, players, prev, action, die, Last(log), snap)
        && Reached(FlightRules(), FlightGame, players, Front(log), prev);
      FlightReached(players, Front(log), prev);
      FlightStepFits(players, Front(log), prev, action, die, Last(log), snap);
      assert Front(log) + [Last(log)] == log;
    }
  }

  lemma FlightIsLawful()
    ensures LawfulRules(FlightRules(), FlightGame) && FlightRules().rebuild([]).Ok?
  {
    var rules := FlightRules();
    assert rules.rebuild([]).Ok?;
    hide Facts, Answers, MayAsk, FlightFits, Reached, FlightRules, TwoPlayers;
    forall players, log, snap | TwoPlayers(players) && Reached(rules, FlightGame, players, log, snap)
      ensures Facts(rules, FlightGame, players, log, snap)
    {
      FlightReached(players, log, snap);
      FlightFacts(players, log, snap);
    }
    forall players, log, snap, actor, action, die
      | TwoPlayers(players) && Reached(rules, FlightGame, players, log, snap) && MayAsk(rules, FlightGame, players, snap, actor, action, die)
      ensures Answers(rules, FlightGame, players, snap, actor, action, die)
    {
      FlightReached(players, log, snap);
      FlightAnswers(players, log, snap, actor, action, die);
    }
  }

  // ------------------------------------------------------------------ rock, paper, scissors

  ghost predicate RpsFits(format: Rps.Format, players: seq<Player>, log: GameEvents, snap: Snap)
    requires TwoPlayers(players)
  {
    snap.state.RpsState? && var own := GameSnapshot(snap.revision, snap.state.rps);
      && Lowered(log, RpsPayload).Some? && Rps.Rebuilt(format, Lowered(log, RpsPayload).value) == Ok(own)
      && |Lowered(log, RpsPayload).value| == |log| == snap.revision
      && RpsProofs.Fair(own, format, players[0].user, players[1].user)
  }

  lemma RpsEngineStep(format: Rps.Format, players: seq<Player>, prev: Snap, action: Action, die: int, e: GameEvent<Payload>, next: Snap)
    requires TwoPlayers(players) && prev.state.RpsState? && LiveStep(RpsRules(format), RpsGame, players, prev, action, die, e, next)
    ensures action.RpsThrow? && Member(players, e.actor) && e.actor in {players[0].user, players[1].user}
    ensures var reply := Rps.ApplyChoice(format, GameSnapshot(prev.revision, prev.state.rps), e.actor, action.choice);
      && reply.Ok? && e == GameEvent(reply.value.event.revision, reply.value.event.actor, RpsStep(reply.value.event.payload))
      && next == GameSnapshot(reply.value.next.revision, RpsState(reply.value.next.state))
  {
    hide Rps.ApplyChoice, ColorOf;
  }

  lemma {:induction false} RpsRebuiltGrows(format: Rps.Format, es: seq<Rps.Event>, prev: Rps.Snap, e: Rps.Event, next: Rps.Snap)
    requires Rps.Rebuilt(format, es) == Ok(prev) && e.revision == |es| + 1 && Rps.ReplayEvent(format, prev, e) == Ok(next)
    ensures Rps.Rebuilt(format, es + [e]) == Ok(next)
  {
    hide Rps.ReplayEvent;
    assert (es + [e])[..|es|] == es;
  }

  lemma RpsStepFits(format: Rps.Format, players: seq<Player>, log: GameEvents, prev: Snap, action: Action, die: int, e: GameEvent<Payload>, next: Snap)
    requires TwoPlayers(players) && RpsFits(format, players, log, prev)
    requires LiveStep(RpsRules(format), RpsGame, players, prev, action, die, e, next)
    ensures RpsFits(format, players, log + [e], next)
  {
    hide RpsProofs.Fair, Rps.ApplyChoice, Rps.ReplayEvent, Lowered, ColorOf, Member, LiveStep, RpsRules, Rps.Rebuilt, Rps.Decodes;
    RpsEngineStep(format, players, prev, action, die, e, next);
    var own := GameSnapshot(prev.revision, prev.state.rps);
    var a := Rps.ApplyChoice(format, own, e.actor, action.choice).value;
    RpsProofs.ChoiceKeepsFair(format, own, players[0].user, players[1].user, e.actor, action.choice);
    RpsProofs.FairDecodes(a.next, format, players[0].user, players[1].user);
    RpsProofs.RevealNamesTheScores(format, own, e.actor, action.choice);
    RpsProofs.ReplayOneChoice(format, own, e.actor, action.choice);
    assert Front(log + [e]) == log && Last(log + [e]) == e;
    LoweredGrows(log + [e], RpsPayload);
    var es := Lowered(log, RpsPayload).value;
    RpsRebuiltGrows(format, es, own, a.event, a.next);
  }

  lemma RpsStart(format: Rps.Format, players: seq<Player>, snap: Snap)
    requires TwoPlayers(players) && RpsRebuild(format, []) == Ok(snap)
    ensures RpsFits(format, players, [], snap)
  {
  }

  lemma RpsFacts(format: Rps.Format, players: seq<Player>, log: GameEvents, snap: Snap)
    requires TwoPlayers(players) && RpsFits(format, players, log, snap)
    ensures Facts(RpsRules(format), RpsGame, players, log, snap)
  {
    hide Lowered, Rps.Rebuilt;
  }

  lemma RpsTurn(format: Rps.Format, own: Rps.Snap, a: UserId, b: UserId, actor: UserId, choice: Rps.Choice)
    requires RpsProofs.Fair(own, format, a, b) && own.state.active && actor in {a, b}
    ensures var reply := Rps.ApplyChoice(format, own, actor, choice);
      && (reply.Err? ==> reply.error == ChoiceAlreadyLocked)
      && (reply.Ok? ==>
           var e, t := reply.value.event, reply.value.next.state;
           && e.revision == reply.value.next.revision == own.revision + 1 && e.actor == actor
           && (e.payload.ChoiceLocked? ==> e.payload.round >= 1 && e.payload.user == actor && e.payload.choice == choice)
           && (e.payload.RoundRevealed? ==> e.payload.shown.round >= 1 && |e.payload.shown.choices| == 2)
           && (e.payload.RoundRevealed? ==>
                actor in e.payload.shown.choices && e.payload.shown.choices[actor] == choice)
           && (!t.active ==> t.result == Some(Rounds) && (t.winner == Some(a) || t.winner == Some(b))))
  {
    RpsProofs.FairDecodes(own, format, a, b);
    if Rps.ApplyChoice(format, own, actor, choice).Ok? {
      Rps.ChoiceGrows(own.state.choices, actor, choice);
      RpsProofs.ChoiceKeepsFair(format, own, a, b, actor, choice);
    }
  }

  lemma RpsAnswers(format: Rps.Format, players: seq<Player>, log: GameEvents, snap: Snap, actor: UserId, action: Action, die: int)
    requires TwoPlayers(players) && RpsFits(format, players, log, snap) && MayAsk(RpsRules(format), RpsGame, players, snap, actor, action, die)
    ensures Answers(RpsRules(format), RpsGame, players, snap, actor, action, die)
  {
    hide RpsProofs.Fair, Rps.ApplyChoice, Lowered, Rps.Rebuilt, ColorOf;
    var own := GameSnapshot(snap.revision, snap.state.rps);
    var a, b := players[0].user, players[1].user;
    assert actor in {a, b};
    RpsTurn(format, own, a, b, actor, action.choice);
    var reply := Rps.ApplyChoice(format, own, actor, action.choice);
    if reply.Ok? {
      RpsProofs.ChoiceKeepsFair(format, own, a, b, actor, action.choice);
      RpsProofs.FairDecodes(reply.value.next, format, a, b);
      RpsProofs.RevealNamesTheScores(format, own, actor, action.choice);
    }
  }

  lemma {:induction false} RpsReached(format: Rps.Format, players: seq<Player>, log: GameEvents, snap: Snap)
    requires TwoPlayers(players) && Reached(RpsRules(format), RpsGame, players, log, snap)
    ensures RpsFits(format, players, log, snap)
    decreases |log|
  {
    hide LiveStep, RpsFits, RpsRebuild, TwoPlayers;
    if log == [] {
      RpsStart(format, players, snap);
    } else {
      hide RpsRules;
      var prev, action, die :|
        LiveStep(RpsRules(format), RpsGame, players, prev, action, die, Last(log), snap)
        && Reached(RpsRules(format), RpsGame, players, Front(log), prev);
      RpsReached(format, players, Front(log), prev);
      RpsStepFits(format, players, Front(log), prev, action, die, Last(log), snap);
      assert Front(log) + [Last(log)] == log;
    }
  }

  lemma RpsIsLawful(format: Rps.Format)
    ensures LawfulRules(RpsRules(format), RpsGame) && RpsRules(format).rebuild([]).Ok?
  {
    var rules := RpsRules(format);
    assert rules.rebuild([]).Ok?;
    hide Facts, Answers, MayAsk, RpsFits, Reached, RpsRules, TwoPlayers;
    forall players, log, snap | TwoPlayers(players) && Reached(rules, RpsGame, players, log, snap)
      ensures Facts(rules, RpsGame, players, log, snap)
    {
      RpsReached(format, players, log, snap);
      RpsFacts(format, players, log, snap);
    }
    forall players, log, snap, actor, action, die
      | TwoPlayers(players) && Reached(rules, RpsGame, players, log, snap) && MayAsk(rules, RpsGame, players, snap, actor, action, die)
      ensures Answers(rules, RpsGame, players, snap, actor, action, die)
    {
      RpsReached(format, players, log, snap);
      RpsAnswers(format, players, log, snap, actor, action, die);
    }
  }

  // ------------------------------------------------------------------------- all of them

  /** The built-in registry is lawful: everything proved of the service holds with its games. */
  lemma BuiltInIsLawful()
    ensures Lawful(BuiltIn())
  {
    hide LawfulRules, GomokuRules, ReversiRules, CheckersRules, FlightRules, RpsRules;
    GomokuIsLawful();
    ReversiIsLawful();
    CheckersIsLawful();
    FlightIsLawful();
    forall g, config | BuiltIn().configured(g, config).Some?
      ensures LawfulRules(BuiltIn().configured(g, config).value, g) && BuiltIn().configured(g, config).value.rebuild([]).Ok?
    {
      if config.Some? {
        RpsIsLawful(config.value);
      }
    }
  }
}
