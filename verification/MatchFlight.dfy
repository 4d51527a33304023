/** The rule that the match service plays flight chess by. */
module MatchFlight {
  import opened Common
  import opened MatchModel
  import opened MatchGames
  import opened FlightChess
  import opened FlightChessLaws

  /** Matches of flight chess are played under today's rule: whatever the service accepts in one, says and
      leaves what that rule says. */
  lemma FlightMatchesPlayToday(snap: GameSnapshot<GameState>, actor: UserId, action: Action, die: int)
    requires snap.state.FlightState? && FlightRules().apply(snap, actor, action, die).Ok?
    ensures var a := FlightRules().apply(snap, actor, action, die).value;
      && a.next.state.FlightState? && a.event.payload.FlightStep?
      && match action
         case FlightRoll => RollTold(snap.state.flight, actor, a.event.payload.flight, a.next.state.flight, true, true)
         case FlightPiece(_) => MoveTold(snap.state.flight, actor, a.event.payload.flight, a.next.state.flight, true, true)
         case _ => false
  {
    hide ApplyRoll, ApplyMove, RollTold, MoveTold;
    var own := GameSnapshot(snap.revision, snap.state.flight);
    if action.FlightRoll? {
      EveryRollIsTold(own, actor, die, true, true);
    } else if action.FlightPiece? {
      EveryMoveIsTold(own, actor, action.pieceIndex, true, true);
    }
  }
}
