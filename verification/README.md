# Gamebox server: a verified model

The server is authoritative for two-player games. This project models four of its parts and
proves what they promise.

* **The match service** (`MatchModel`, `MatchTables`, `MatchService`). Every action appends one
  event to a per-match log under an expected revision. The game state is never stored: each read
  replays the log and cross-checks the replay with the match row, the seats and the active slots,
  answering an internal error on any disagreement. The tables are maps held by the class
  `Service`; each transaction is a method that either leaves the state its specification gives or
  changes nothing. `MatchFiles`, `MatchProofs`, `MatchRuns` prove, for any *lawful* rules, that
  nothing the service commits ever trips those checks; `MatchGames`, `MatchGamesProofs` show the
  five built-in games lawful and `MatchTheorems` states the result for them. `MatchClock` is
  about clocks that run backwards, `MatchCredentials` and `MatchExpiry` about tickets, tokens and
  sessions. `MatchLaws` and `MatchOutcomes` say exactly which requests are granted and what they
  write, `MatchIsolation` what they leave alone, `MatchIntegrity` exactly which stored matches can be
  read, and `MatchFlight` which rule flight chess is played by.
* **Fan-out and presence** (`Hub`, `HubProofs`, `HubDelivery`, `HubPresence`, `HubMarking`,
  `HubLoops`, `HubLosses`, `PresenceLock`, `Presence`, `PresenceLaws`, `PresenceDelivery`). The hub delivers
  committed events to connections although publishes, snapshots, handshakes and writes interleave
  freely; the presence service keeps the offline timer and announces who comes and goes. Both are
  step machines whose atomic steps are the code's critical sections; `PresenceDelivery` shows that
  presence operations under their locks behave as whole ones.
* **The rule engines** (`FlightChess`, `Gomoku`, `ChineseCheckers`, `Reversi`, `Rps`, each with
  its proofs and laws). Each takes a snapshot and an action and gives an event and the next
  snapshot, which its own decoder must accept again. The laws (`FlightChessLaws` and so on) read the
  rules of the game off boards and logs: exactly which requests a game accepts, and what they do.
* **Battleship** (`Battleship`, `BattleshipProofs`, `BattleshipService`, `BattleshipLaws`): a stored
  state with hidden fleets, an action ledger and rematches.

The shape is the same throughout. Pure functions give the meaning; loops, classes and in-place
updates follow the Go code and are proved equal to them; the lemmas are about the functions, over
all inputs, all reachable states or all interleavings.

What a *sound* store, hub or match means is spelled out in the predicates `MatchProofs.Sound`,
`HubProofs.Sound`, `PresenceLock.Sound`, `Presence.Sound`, `BattleshipProofs.Fair` and
`FlightChessRuns.Sound`; *lawful* rules in `MatchFiles.LawfulRules`.

## Where the code does less than it promises

* **Clock.** `loadMatchAndPlayers` refuses a row created after it was updated. A commit made while
  the clock reads earlier than the match's creation is therefore stored but never readable again
  (`CommitLoadsExactlyIfClockHolds`, `UnreadableForGood`). If the match is active with its offline
  timer set, every later sweep of expired matches fails at it and reaches no match with a larger
  identifier (`SweepsStayBlocked`; `OneActionCanBlockTheSweep` is a run).
* **Flight-chess cap.** Replay tries today's rule first and gives up when that rule refuses, so an
  event of an older rule replays if and only if today's rule would count it within the capture cap.
  `CapDefeatsReplay` plays a game in which it does not, `CapStopsAGame` one that has no move left.
  The service's 512 events never get near (`SoundBoundsCaptures`).
* **Full connections.** `flushPublishedLocked` leaves a full connection ready until it is closed,
  so a later event can follow a lost one (`FullConnectionMissesAnEvent`). `NoGaps` is about
  connections that have not lost a message; `GapExactlyIfAnEventComesFirst` about those that have.
* **Presence order.** The comment at `server/internal/matches/presence.go:77-78` says the durable
  write precedes visibility; the code inserts the key first and removes it when the write fails.
  The model follows the code.
* **Start-up timers.** A match nobody ever joined has no offline timer only until the first
  restart: start-up gives every active match without one a timer. `PresenceIsFaithful` states both
  directions.
* **Rock-paper-scissors alone.** The engine does not limit who plays; its snapshot stops decoding
  exactly when a third player has scored (`ChoicePassesDecoder`, `ThirdScorerBreaksTheGame`). The
  service seats two.

## Model

| member | source | states |
|---|---|---|
| MatchTheorems.TheServiceHolds | server/internal/matches/service.go:2036-2169 | With the five built-in games installed and over every history of creating, playing, cancelling, sweeping, presence changes, credentials, transfers and restarts, in which the clock was never behind the creation of a stored match, identifiers were new and a free hash was drawn: each stored match loads, passes every cross-check and replays its own log, and the next such operation, whatever it is, does not answer an internal error. |
| MatchTheorems.SlotsFollowTheMatch | server/internal/matches/service.go:3166-3208 | Over every history with fair dice, whatever the clock shows: a match is active if and only if both its players hold their slot for it; no other row points at it; its launch tickets and resume tokens are gone once it ends; and an active match is always strictly below its event limit. |
| MatchRuns.EveryMatchRebuilds | server/internal/matches/service.go:995-1022 | The first half of that for any registry of lawful rules: after any run from empty tables that was supplied with sound clocks, new identifiers and free hashes, `Snapshot` succeeds on every match and returns its row. |
| MatchRuns.NeverInternal | server/internal/matches/service.go:1027-1457 | In sound tables whose rows all load, no operation supplied with a sound clock, a new identifier and a free hash answers an internal error, and all rows still load afterwards. |
| MatchRuns.RunKeepsSound | server/internal/matches/service.go:1027-1457 | Soundness (every log replays, lifecycle and slots agree, foreign keys hold, credentials only for active matches, the ledger of absorbed actions fits its match) survives every run, with no assumption about the clock. |
| MatchRuns.ActiveExactlyWhileSeated | server/internal/matches/service.go:1398-1427 | In every sound state: active if and only if both slots exist, slots belong only to active matches, credentials die with the match, and the revision equals the number of logged events, strictly below the limit while active. |
| MatchRuns.RunKeeps | server/internal/matches/service.go:2505-2542 | History is append-only over every run: no match disappears, its log only grows, its players, game and configuration never change, and an ended match never changes again. |
| MatchRuns.ActionsAreExactlyOnce | server/internal/matches/service.go:1067-1101 | Repeating a committed (actor, action id), after any further operations and even after the match ended, changes nothing, and its answer is known exactly: refused when malformed, sent over a revoked session, or of another game; an internal error when the clock has made the match unreadable; a conflict when it means something else; and otherwise the original event, whatever die would be rolled now and whatever revision it names. The action absorbed by the 512-event abandonment retries the same way. |
| MatchRuns.FlightEndsByItsLimit | server/internal/matches/service.go:1204-1222 | Whatever operation appends an event to a flight-chess match at revision 511, be it an action, an abandonment or anything else, ends it with exactly 512 events. |
| MatchClock.CommitLoadsExactlyIfClockHolds | server/internal/matches/service.go:1971-2034 | After any operation that appends an event to a match, action, cancellation or abandonment, the match is readable if and only if the clock was not before its creation; otherwise reading it answers an internal error. |
| MatchClock.UnreadableForGood | server/internal/matches/service.go:1971-2034 | There is no way back: over every further run such a match keeps its file, every read of it answers an internal error, and an active one with its offline timer set keeps that too. |
| MatchClock.SweepStopsAtUnreadable | server/internal/matches/service.go:1586-1600 | One expired match that cannot be loaded makes the sweep fail and leaves every match with a larger identifier untouched. |
| MatchClock.SweepsStayBlocked | server/internal/matches/service.go:1586-1600 | So do all later sweeps, over every run, once its timer is a day old. |
| MatchTheorems.OneActionCanBlockTheSweep | server/internal/matches/service.go:1549-1601 | The concrete run: created and gone offline at one moment, one choice committed a moment before it; the match is then active, unreadable and timed. |
| MatchClock.ClockStepsBackwards | server/internal/matches/service.go:1971-2034 | A second one: created at 1000, cancelled at 999, unreadable afterwards. |
| MatchCredentials.TicketWorksOnce | server/internal/matches/service.go:596-660 | A launch ticket that has connected never connects again, over every run that does not draw its hash a second time. |
| MatchCredentials.DeadForGood | server/internal/matches/service.go:549-718 | Neither does any credential once it is used, superseded, revoked or deleted: presenting it fails and changes nothing. |
| MatchCredentials.ConnectingUsesUp | server/internal/matches/service.go:647-690 | Connecting with a ticket uses it up, issues an unused token, and kills every older token of the player for the match. |
| MatchCredentials.OneCredentialEach | server/internal/matches/service.go:681-690 | Over every run a player has at most one resume token and at most one launch ticket for a match. |
| MatchCredentials.TransferKillsAll | server/internal/auth/transfer.go:194-199 | Moving an account kills all its tickets, tokens and sessions of other epochs. |
| MatchProofs.ActKeepsSound | server/internal/matches/service.go:1027-1457 | One action keeps every match sound, never answers an internal error on a match that loads, and the snapshot it returns is exactly what replaying the new log yields. |
| MatchProofs.CommitKeepsSound | server/internal/matches/service.go:1365-1441 | Writing any well-formed extension of one file, with slots and credentials released when it ends, keeps every match, its own and all others, sound. |
| MatchProofs.CreateKeepsSound | server/internal/matches/service.go:756-868 | Creating a match, or refusing to, keeps every match sound. |
| MatchProofs.CancelKeepsSound | server/internal/matches/service.go:872-991 | Cancelling keeps every match sound and never answers an internal error, although it does not replay the log. |
| MatchProofs.AbandonKeepsSound | server/internal/matches/service.go:1603-1695 | Abandoning an expired match keeps every match sound and never answers an internal error on a match that loads. |
| MatchProofs.EarlierEventIsSafe | server/internal/matches/service.go:2551-2609 | Looking up a repeated action in a sound store never trips an internal check. |
| MatchFiles.AcceptedStep | server/internal/matches/service.go:1124-1282 | For any lawful rules, appending the event a live step produced gives a file that passes every rebuild check and replays to exactly the position returned live. |
| MatchFiles.ResignationStep | server/internal/matches/service.go:1283-1361 | A resignation by a player of an active match always fits the budget and leaves a file that passes every check and replays to the same position. |
| MatchFiles.AbandonmentStep | server/internal/matches/service.go:1603-1695 | So does an abandonment. |
| MatchFiles.CancellationStep | server/internal/matches/service.go:872-991 | A cancellable match has an empty log, and the cancelled file passes every check. |
| MatchFiles.DecisionIsGood | server/internal/matches/service.go:1135-1363 | Whatever the service decides about a well-formed action of a member, it is a refusal meant for the player or a file that replays to the decided position; only flight chess at its limit turns a move into an abandonment. |
| MatchFiles.NewFile | server/internal/matches/service.go:756-868 | A newly created match passes every rebuild check. |
| MatchLaws.ActionAppends | server/internal/matches/service.go:1027-1117 | An action makes a log grow only in the name of a player of an active match, over a session of the account's present epoch, under an identifier this player has not used before, and at its time: the revision it expects is the length of the log, or, for the second throw of a rock-paper-scissors round, one less, the missing event being the other player's locked choice. The one new event carries out what was asked, or is the abandonment in the 512th place of a flight-chess log. |
| MatchLaws.RevisionsDiffer | server/internal/matches/service.go:1110-1117 | Over every run, of two actions that one log took in the later one expects the greater revision, but for the two throws of one rock-paper-scissors round, which may share theirs: they are by different players and follow each other. |
| MatchLaws.StaleExactlyIfNotTimely | server/internal/matches/service.go:1110-1117 | A new, well-formed action of a player of an active, readable match is refused as stale if and only if it is not at its time. |
| MatchLaws.WhoAppends | server/internal/matches/service.go:1365-1378 | Whatever operation makes a log grow is such an action, the cancellation by a player of a match in which nothing happened, or the abandonment of an active match whose players have all been offline since the cutoff, a day before the sweep. |
| MatchOutcomes.AnsweredExactlyIfGranted | server/internal/matches/service.go:1103-1456 | A timely new action is answered with success if and only if it resigns after something was played, or it is the player's turn, there is room (225 events in Chinese checkers, 224 in rock-paper-scissors) and the game's rules accept it on the replayed position. The match is then resigned to the other player, decided as the rules decide, abandoned at the 512th event, or still on; every refusal is named exactly. |
| MatchOutcomes.CreatedExactlyIfFree | server/internal/matches/service.go:756-868 | A match is created if and only if two different enabled users are named, the game can be configured so, and neither plays it in an active match already; each refusal has its own exact condition. It seats them in the colours drawn, with an empty log, and touches no other match. |
| MatchOutcomes.CancelledExactlyIfUntouched | server/internal/matches/service.go:872-991 | A match is cancelled if and only if one of its players asks while it is active and its log is empty. |
| MatchOutcomes.SweptExactlyIfDue | server/internal/matches/service.go:1549-1695 | While the clock is sound, one sweep abandons exactly the active matches whose players have all been offline for 86,400,000 milliseconds, and leaves every other match as it was. |
| MatchOutcomes.IssuedExactlyToPlayers | server/internal/matches/service.go:396-484 | While matches can be read and a free hash is drawn, a launch ticket is issued if and only if the match is active and the user plays in it; it replaces the player's other tickets for the match and nothing else. |
| MatchOutcomes.PresenceIsOfPlayers | server/internal/matches/service.go:1475-1544 | A player's coming or going is recorded if and only if the match exists and the user plays in it, and touches nothing but the timer of a match that is still on. |
| MatchIntegrity.ReadExactlyIfConsistent | server/internal/matches/service.go:1971-2443 | Whatever the tables hold, a match can be read if and only if its rows are numbered, in turn and by its players, its log replays under the game's rules, and the match row, the seats and the active slots agree with where the replay leads. |
| MatchIntegrity.ScanIsRowByRow | server/internal/matches/service.go:2066-2120 | The scan of a log accepts it exactly when each row holds on its own, and hands the played ones to the rules in order. |
| MatchIsolation.OperationsConcernOneMatch | server/internal/matches/service.go:549-1695 | Every operation about one match leaves everything stored about any other as it was: row, log, players, slots, tickets and tokens. |
| MatchIsolation.RunningMatchKeepsItsOwn | server/internal/matches/service.go:1398-1441 | An action that does not end its match leaves all slots and credentials as they were. |
| MatchIsolation.ConnectingTouchesOnlyItsOwn | server/internal/matches/service.go:631-690 | Connecting with a ticket uses up that ticket and replaces the tokens of that player for that match; with a token it extends that token; nothing else changes. |
| MatchIsolation.TransferTouchesOnlyItsUser | server/internal/auth/transfer.go:194-199 | A transfer changes no other account's epoch, tickets or tokens. |
| MatchExpiry.TicketLivesAMinute | server/internal/matches/service.go:69 | A launch ticket issued at one moment is refused 60,000 milliseconds later and ever after, over every run that does not draw its hash again, and presenting it then changes nothing. |
| MatchExpiry.TokenLivesHalfAnHour | server/internal/matches/service.go:74 | A resume token issued or last used at one moment is refused 1,800,000 milliseconds later and ever after, unless it was used in between, and presenting it then changes nothing. |
| MatchExpiry.RunsOutForGood | server/internal/matches/service.go:592-622 | Only a connection with the token itself ever puts off a stored expiry. |
| MatchExpiry.ExpiredIsRefused | server/internal/matches/service.go:602-616 | From its stored expiry on a credential is refused and nothing is written. |
| MatchExpiry.ConnectsExactlyIfItWorks | server/internal/matches/service.go:549-718 | In the tables any run leaves, while matches can be read and free hashes are drawn: a credential connects if and only if it is stored, neither used up nor revoked, before its expiry, and its account is enabled. It connects its own user to its own match in the account's present session, with a token for half an hour. |
| MatchExpiry.RunKeepsHeld | server/internal/matches/service.go:396-718 | Over every run each ticket and token is held by a player of its match. |
| MatchRuns.MeaningIsUnique | server/internal/matches/service.go:2611-2722 | A logged payload determines the action asked for: two actions that both match one payload are equal. |
| LateChoice.LateChoiceClosesTheRoundItSaw | server/internal/matches/service.go:1459-1473 | Whenever a rock-paper-scissors choice one revision late is forgiven, it is accepted and it closes exactly the round in the position the sender had seen. |
| LateChoice.SecondChoiceFits | server/internal/matches/service.go:1257-1260 | The two events kept in reserve mean a locked choice is never stranded: the opponent's choice still fits the budget. |
| MatchGamesProofs.BuiltInIsLawful | server/internal/games/registry.go:34-41 | The registry of the five built-in games is lawful, so all of the above holds of it. |
| MatchGamesProofs.FlightIsLawful | server/internal/matches/service.go:2171-2254 | Every history two seated players can produce through the service, with any dice, rebuilds under flight chess, reports the seats and the turn that the rebuild cross-checks, and every engine answer passes the produced-event checks. |
| MatchGamesProofs.GomokuIsLawful | server/internal/matches/service.go:2036-2169 | The same for gomoku, which also cannot be active with its board full. |
| MatchGamesProofs.ReversiIsLawful | server/internal/matches/service.go:2036-2169 | The same for reversi, where passes make turns differ from revision parity. |
| MatchGamesProofs.CheckersIsLawful | server/internal/matches/service.go:2256-2351 | The same for Chinese checkers. |
| MatchGamesProofs.RpsIsLawful | server/internal/matches/service.go:2353-2443 | The same for rock-paper-scissors in both formats. |
| MatchFlight.FlightMatchesPlayToday | server/internal/matches/service.go:1159-1190 | Whatever the service accepts in a flight-chess match says and leaves what today's rule says. |
| MatchTheorems.PresenceWritesTheRow | server/internal/matches/service.go:1488-1544 | The timer column that the service writes on presence changes and at start-up is the timer of the presence protocol's model. |
| MatchService.Service.ApplyAction | server/internal/matches/service.go:1027-1457 | The in-place transaction returns the reply and leaves the tables of the specification `MatchTables.Act`, about which the theorems above are proved, the session check at its head included; every refusal leaves all tables as they were. |
| MatchService.Service.ApplyFresh | server/internal/matches/service.go:1103-1456 | The part after the retry lookup: status, membership and revision checks, replay, decision and write. |
| MatchService.Service.WriteDecision | server/internal/matches/service.go:1365-1456 | One event appended, the row advanced; on an ending the slots and credentials go, and an absorbed flight-chess action is remembered. |
| MatchService.Service.Rebuild | server/internal/matches/service.go:2036-2169 | The table-walking rebuild equals the replay specification, including its slot check. |
| MatchService.Service.LoadMatchAndPlayers | server/internal/matches/service.go:1971-2034 | Loads exactly the rows that pass the stored-row checks. |
| MatchService.Service.FindEarlierEvent | server/internal/matches/service.go:1067-1101 | Classifies a request as new, a true repeat or a conflict. |
| MatchService.Service.ReadFlightChessLimitAction | server/internal/matches/service.go:2581-2609 | Answers repeats of the action absorbed by the flight-chess limit. |
| MatchService.Service.Create | server/internal/matches/service.go:756-868 | The whole new state of creating a match, for every refusal as well. |
| MatchService.Service.CancelMatch | server/internal/matches/service.go:872-991 | The whole new state of cancelling. |
| MatchService.Service.AbandonOne | server/internal/matches/service.go:1603-1695 | The whole new state of abandoning one expired match. |
| MatchService.Service.AbandonExpiredMatches | server/internal/matches/service.go:1549-1601 | The sweep over due matches in order, stopping at the first error with what was committed kept. Its transactions also run one by one, with anything in between, in the theorems over runs. |
| MatchService.Service.SetPlayerPresence | server/internal/matches/service.go:1488-1544 | Sets or clears the offline timer of an active match, once set never moved. |
| MatchService.Service.MarkActiveMatchesOfflineOnBoot | server/internal/matches/service.go:1726-1755 | Start-up gives every active match without a timer one, and touches nothing else. |
| MatchService.Service.CreateLaunchTicket | server/internal/matches/service.go:396-484 | Issues the first unused candidate within the retry budget, for players of a match that rebuilds. |
| MatchService.Service.ConnectCredential | server/internal/matches/service.go:549-718 | Consumes a ticket or extends a token, supersedes the player's other tokens for the match, and answers with the session of the account's present epoch. |
| MatchService.ScanEvents | server/internal/matches/service.go:2065-2128 | The single pass over stored events finds exactly the accepted moves and the terminal row of the recursive specification, or fails with it. |
| MatchService.ValidateCompleteActiveSlotSet | server/internal/matches/service.go:3166-3208 | The row-counting loop accepts exactly when the set of slot rows equals the expected set. |
| MatchService.ReadActionEvent | server/internal/matches/service.go:2551-2577 | Finds the first event of that actor and action id, if any. |
| HubProofs.NoGaps | server/internal/matches/hub.go:670-734 | Over every interleaving of commits, publishes in any order, joins, snapshots, handshakes, writes and closes: a connection that never lost a message has been sent exactly the committed events up to its revision, each once and in order; at every moment its client shows a prefix of the committed history; and while ready its revision is at least the published watermark. |
| HubProofs.NextEventOnly | server/internal/matches/hub.go:781-808 | An event that a ready, never-overflowed connection accepts has exactly the connection's revision plus one. |
| HubLosses.LostExactlyWhenFull | server/internal/matches/hub.go:712-729 | A ready connection with nothing lost loses the next published event if and only if it needs it and its queue is full. |
| HubLosses.GapExactlyIfAnEventComesFirst | server/internal/matches/hub.go:718-725 | The converse of the no-gap theorem, over every run: when a ready connection with nothing lost falls behind the watermark by any step, be it a publication, a flush or another connection's readiness, and is not closed, its client sees a gap at the next message about the game if and only if that message is an event, and none if it is a snapshot. |
| HubLosses.OtherLossesAreNoEvents | server/internal/matches/hub.go:857-866 | A ready connection that loses a message by any other step has lost a notice or a requested snapshot, and no event: it is not behind. |
| HubLosses.FullConnectionMissesAnEvent | server/internal/matches/hub.go:718-725 | A run of the whole protocol from its start in which a client is shown the second event without the first. |
| HubLosses.RunStaysMissed | server/internal/matches/hub.go:670-734 | Whatever happens to such a connection short of closing it, it is only ever sent snapshots, notices and later events. |
| HubProofs.RunKeepsSound | server/internal/matches/hub.go:528-602 | The hub's invariant (queues, pending events, watermark and connection revisions against the committed log) survives every run. |
| HubProofs.StepKeepsSound | server/internal/matches/hub.go:670-734 | Each single step keeps that invariant. |
| HubProofs.MarkFits | server/internal/matches/hub.go:528-602 | Making a connection ready keeps the invariant: raising the watermark, resnapshotting peers that lag, flushing, and draining what was held back during the handshake. |
| HubProofs.MoreKeepsSound | server/internal/matches/hub.go:528-602 | The same when the readiness step goes message by message, with everything in between that does without the hub's lock: writes, notices, other connections' snapshots, commits. |
| HubMarking.MessagesMakeTheWholeStep | server/internal/matches/hub.go:528-602 | Left alone, the messages of a readiness step lead exactly where the whole step does. |
| HubProofs.DrainFits | server/internal/matches/hub.go:570-580 | Draining held-back events queues exactly the missing ones, in order. |
| HubProofs.FlushKeepsPending | server/internal/matches/hub.go:708-734 | While others are flushed, a handshaking connection collects exactly the consecutive events it will need. |
| HubProofs.PublishFits | server/internal/matches/hub.go:670-706 | A publish in any order, early, late or repeated, keeps the invariant. |
| HubLoops.StaleAnswersRunOut | server/internal/matches/hub.go:1048-1090 | With any steps between each read and its check and between a check and the next read: if the first n checks found the read too old, then at least n events were committed meanwhile; so at most `limit` answers in a row are stale, one fewer than the loops allow. |
| HubLoops.EveryReadOvertaken | server/internal/matches/hub.go:1048-1090 | The bound is tight: as many stale answers in a row as there are events can happen. |
| HubLoops.StaleMeansTooOld | server/internal/matches/hub.go:528-538 | The readiness step and both enqueue checks answer stale exactly when the read is too old in that sense. |
| HubLoops.StaleIsBehind | server/internal/matches/hub.go:528-538 | A snapshot found too old is strictly behind what is committed. |
| HubLoops.RetryUntilCurrent | server/internal/matches/hub.go:368-388 | The handshake and resnapshot loops, run against the protocol with arbitrary steps inside each of their `limit + 1` attempts, stop at the first attempt whose read is current when checked, and never exhaust them. |
| Hub.HubMatch.Publish | server/internal/matches/hub.go:670-706 | Out-of-range, old and repeated revisions change nothing; otherwise the locked update equals the specification, and exactly the connections that lost a message are handed over to be closed. |
| Hub.HubMatch.FlushPublished | server/internal/matches/hub.go:708-734 | The loop delivers the maximal consecutive run of waiting events and reports exactly the connections that lost one. |
| Hub.HubMatch.Deliver | server/internal/matches/hub.go:712-729 | One event goes to every connection: queued when ready, held back when not, and exactly the refusing ones are reported slow. |
| Hub.HubMatch.ResnapshotReadyPeers | server/internal/matches/hub.go:540-564 | Every ready peer behind the new watermark is restated, nobody else is touched, and exactly those that could not be are reported. |
| Hub.HubMatch.Mark | server/internal/matches/hub.go:528-602 | The whole new room and both answers of the readiness step; exactly the connections that lost a message, its own included, are handed over to be closed. |
| Hub.HubMatch.SendHeld | server/internal/matches/hub.go:570-598 | What was held back during the handshake is queued in order, missing events first and then the latest presence of each player, until the queue is full. |
| Hub.HubMatch.PlayerPresenceChanged | server/internal/matches/hub.go:607-642 | Ready connections that asked for it are told, handshaking ones keep the latest state, and exactly those that could not be told are handed over to be closed. |
| HubDelivery.PublishedIsHandedOut | server/internal/matches/hub.go:670-734 | While a match has a room, the watermark reaches n as soon as every event from where it stood up to n has been published, in whatever order and with anything in between; nothing stays behind because a later event was published first. |
| HubDelivery.HandedIsHandedOut | server/internal/matches/hub.go:670-734 | The same when publications arrive and are flushed event by event, as soon as nothing is left to flush. |
| HubDelivery.EverybodyIsTold | server/internal/matches/hub.go:670-734 | Every connection past its handshake that has lost nothing is then ready and has been sent each of those events, as an event or in a snapshot that shows it. |
| HubDelivery.HandshakeEnds | server/internal/matches/hub.go:528-605 | A readiness step puts the connection into service exactly if its snapshot is not behind the watermark. |
| HubDelivery.LossMeansFull | server/internal/matches/hub.go:528-734 | A connection is given up only when at least 31 messages are queued or 32 events kept for it, or when a snapshot its user does not belong to overtakes it. |
| HubPresence.PresenceArrives | server/internal/matches/hub.go:607-642 | However announcements, handshake and everything else interleave: a connection that wants to know and has lost nothing has, past its handshake, been told of each player exactly what was announced last since it registered. |
| PresenceLock.MutualExclusion | server/internal/matches/presence.go:449-483 | Over every interleaving, across deletion and recreation of the lock and cancelled waiters, two operations never hold one match's lock at once, and a lock exists exactly while somebody uses it. |
| PresenceLock.RunKeepsSound | server/internal/matches/presence.go:449-483 | Reference counts equal the number of users, and a token is out exactly while its holder holds it, over every run. |
| PresenceLock.OneAtATimeInOrder | server/internal/matches/presence.go:372-393 | A notification is delivered only after every earlier reservation of the match is done; once they are and it has been dispatched it can begin. |
| PresenceLock.MoveKeepsOrder | server/internal/matches/presence.go:372-393 | Each reservation, dispatch, start, end and clean-up of the tail keeps that order. |
| PresenceLock.OperationTable.CountIn | server/internal/matches/presence.go:449-456 | Takes the existing lock or creates one, and counts the user in, under the mutex. |
| PresenceLock.OperationTable.CountOut | server/internal/matches/presence.go:476-483 | Counts the user out, deletes the lock exactly when unused, and says whether it did. |
| PresenceLock.OperationTable.TakeOrCancel | server/internal/matches/presence.go:457-466 | A waiter takes the token when it is free, or gives up, and then still has to be counted out. |
| PresenceLock.OperationTable.GiveBack | server/internal/matches/presence.go:463-469 | Puts the token back; the holder is then still counted in. |
| PresenceDelivery.RunRefines | server/internal/matches/presence.go:79-351 | Presence under its locks is presence in whole operations: with operations run as the code runs them, in sections with a store call and a possible rollback between, by threads that take and give back the match's lock, every run, read with the operation on its way undone, is a run of whole operations. |
| PresenceDelivery.StepRefines | server/internal/matches/presence.go:79-351 | Each section, store answer, rollback, reservation, recorded activity or restart completes exactly one whole operation or none. |
| PresenceDelivery.OneAtATime | server/internal/matches/presence.go:449-483 | The lock lets at most one operation on a match be on its way. |
| PresenceDelivery.ObserversSeeABeginning | server/internal/matches/presence.go:359-393 | Over all those runs, each announcement reserving its place before the lock is given back: observers have been told a beginning of what was announced, each player's boundaries alternating; and between operations the connections and the timer are as the last announcements say. |
| Presence.PresenceIsFaithful | server/internal/matches/presence.go:79-200 | Over every run, failed store calls included: each player's announcements strictly alternate starting with online and end in the true state; a live connection implies a null timer; and with none left an active match's timer is set if and only if somebody ever joined or the service has restarted since. |
| Presence.LastConnectionStartsTheTimer | server/internal/matches/presence.go:148-200 | Losing the last connection, by disconnect or sweep, starts the timer at that moment. |
| Presence.EverybodyIsGone | server/internal/matches/presence.go:330-351 | When a sweep empties a match its list of players gone offline is not empty, so its first element exists. |
| Presence.SweepKeepsSound | server/internal/matches/presence.go:291-351 | A sweep with any stale candidate list keeps the invariant, whether or not the store call succeeds. |
| Presence.ConnectKeepsSound | server/internal/matches/presence.go:79-128 | So does a connect. |
| Presence.DisconnectKeepsSound | server/internal/matches/presence.go:148-200 | So does a disconnect. |
| Presence.FarewellsAlternate | server/internal/matches/presence.go:296-307 | Announcing everybody who went offline, once each, keeps every player's announcements alternating. |
| Presence.PresenceService.ConnectPlayer | server/internal/matches/presence.go:79-128 | Inserts the key first and takes it back when the store call fails; the key is present exactly on success. |
| Presence.PresenceService.DisconnectPlayer | server/internal/matches/presence.go:148-200 | Removes the key, writes the timer only for the last connection, and restores the key when the store call fails. |
| Presence.PresenceService.TouchConnection | server/internal/matches/presence.go:132-144 | Records activity of a known connection; an unknown one changes nothing and is reported as such. |
| Presence.PresenceService.SweepMatch | server/internal/matches/presence.go:291-351 | The whole new state of a sweep: still-expired candidates go, and come back when the store call fails, which is the only failure. |
| Presence.PresenceService.FindExpired | server/internal/matches/presence.go:309-317 | Exactly the candidates still connected and not seen within 45 seconds. |
| Presence.PresenceService.FindOffline | server/internal/matches/presence.go:318-331 | Exactly the players with no connection left. |
| PresenceLaws.ConnectionsAreTheSeen | server/internal/matches/presence.go:79-200 | While the store works, exactly the connections are there that have connected and neither left, nor been lost in a restart, nor been found silent for more than 45,000 milliseconds, each with its last sign of life. |
| PresenceLaws.FailureUndoesExactlyWhatNeedsTheStore | server/internal/matches/presence.go:79-350 | A failing store call undoes the whole step exactly when the step brings a player's first connection or takes the last one of all; otherwise the step is as if it had not failed. |
| FlightChessRuns.ReplayIsFaithful | server/internal/games/flightchess/rules.go:113-175 | Replaying the log of any game, under any mixture of today's and older rules, gives the live snapshot if and only if each accepted move, as today's rule counts its captures, was within the cap at its time; otherwise replay fails. |
| FlightChessRuns.GamesStayWithinCap | server/internal/games/flightchess/rules.go:638-642 | That holds under today's rules at any length, and under any mixture up to 4088 events, eight times what a match can hold. |
| FlightChessRuns.ReplayIsUnambiguous | server/internal/games/flightchess/rules.go:113-175 | Two rule variants whose payload matches the same event leave the same position. |
| FlightChessRuns.ReplayOrderDoesNotMatter | server/internal/games/flightchess/rules.go:113-175 | Whichever variant wrote an event, replay reaches that variant's position if today's rule answers the action at all, and fails otherwise; the order of the older attempts plays no part. |
| FlightChessRuns.TodayAnswersExactlyWithinCap | server/internal/games/flightchess/rules.go:113-175 | Today's rule answers an action some rule accepted if and only if the mover's captures plus those today's rule counts stay within the cap; so always with four to spare. |
| FlightChessCap.CapDefeatsReplay | server/internal/games/flightchess/rules.go:638-642 | A game played from the start, of some twenty thousand events, whose log replays until an older rule accepts one more move, and not afterwards. |
| FlightChessCap.CapStopsAGame | server/internal/games/flightchess/rules.go:638-642 | A game played from the start that ends awaiting a move when no request is answered: the only movable piece would capture, and the counter is full. |
| FlightChessRuns.Conservation | server/internal/games/flightchess/rules.go:198-265 | For each colour, launches out of the hangar equal pieces now out plus pieces captured by the opponent; hence total captures are at most half the revision. |
| FlightChessRuns.SoundBoundsCaptures | server/internal/games/flightchess/rules.go:638-642 | Twice all captures is at most the revision, so the 2048 cap is out of reach in a 512-event match. |
| FlightChessRuns.EveryGameIsSound | server/internal/games/flightchess/rules.go:634-683 | Every reachable state is valid, no main cell holds both colours, and the launch balance holds, under any mixture of rule variants. |
| FlightChessProofs.MoveKeepsValidity | server/internal/games/flightchess/rules.go:198-265 | A legal move leads to a valid state if and only if the captures stay within the cap. |
| FlightChessProofs.RollKeepsValidity | server/internal/games/flightchess/rules.go:271-317 | Every roll leads to a valid state, under every rule variant. |
| FlightChessProofs.EveryRollIsAccepted | server/internal/games/flightchess/rules.go:271-317 | Awaiting a roll, the player to move has every die value accepted. |
| FlightChessProofs.LegalMoveIsAccepted | server/internal/games/flightchess/rules.go:198-265 | A resolvable move is accepted if and only if its captures stay within the cap, and it captures at most four. |
| FlightChessProofs.NoPositionIsStuck | server/internal/games/flightchess/rules.go:198-317 | When an active position is stuck: never awaiting a roll; awaiting a move a piece is accepted if and only if it may move within the cap, and some piece always may with four captures to spare. |
| FlightChessProofs.ProgressOfIndex | server/internal/games/flightchess/rules.go:459-470 | Main-track progress 1 to 50 survives the trip to a cell index and back. |
| FlightChessProofs.IndexOfProgress | server/internal/games/flightchess/rules.go:459-470 | Wherever a cell has a progress for a colour, that progress lies in 1 to 50 and leads back to the cell. |
| FlightChessProofs.ResolvedPieceIsValid | server/internal/games/flightchess/rules.go:344-411 | From any valid place, a resolved roll (launch, walk, jump, shortcut, home bounce) leads to a valid place. |
| FlightChess.CapturedSlotsSpec | server/internal/games/flightchess/rules.go:444-457 | Captured slots are exactly the enemy slots standing on a struck cell, in slot order. |
| FlightChess.MovableSlotsSpec | server/internal/games/flightchess/rules.go:413-421 | Movable slots are exactly those whose piece can move, in slot order. |
| FlightChess.FilteredIsMovableSlots | server/internal/games/flightchess/rules.go:288-299 | Removing today's additions from today's list gives exactly the list of the older rule. |
| FlightChess.CaptureAt | server/internal/games/flightchess/rules.go:444-457 | The in-place loop sends exactly the struck pieces home and reports their slots. |
| FlightChess.MovablePieces | server/internal/games/flightchess/rules.go:413-421 | The loop finds the movable slots. |
| FlightChess.PlayResolved | server/internal/games/flightchess/rules.go:219-250 | Moving, capturing, finishing and passing the turn give the position of the specification. |
| FlightChess.ApplyMoveWithCrossing | server/internal/games/flightchess/rules.go:198-265 | The imperative move equals the specification that the theorems are about, refusals in order. |
| FlightChess.LegacyMovable | server/internal/games/flightchess/rules.go:288-299 | The filtering loop gives the older rule's movable list. |
| FlightChess.ApplyRollValueWithOptions | server/internal/games/flightchess/rules.go:271-317 | The imperative roll equals its specification. |
| FlightChess.TryOlder | server/internal/games/flightchess/rules.go:121-170 | The fallback loop answers as the first older rule that reproduces the payload, or as the last one tried. |
| FlightChess.Rebuild | server/internal/games/flightchess/rules.go:113-175 | The replay loop with its fallback attempts equals the fold specification. |
| FlightChessLaws.EveryMoveIsTold | server/internal/games/flightchess/rules.go:198-265 | Every logged move, of either colour and under each rule that was ever in force: where the die lands the piece (launch pad, own-coloured jump of four, the shortcut from 18 to 30 reached directly or by a jump, the lane, and the bounce at its end), which enemy pieces it strikes and sends to their hangar slots, the counters, who won and whose turn follows. |
| FlightChessLaws.EveryRollIsTold | server/internal/games/flightchess/rules.go:271-317 | Every logged roll: it lists exactly the pieces that can move, in order; the same player moves one of them, and when there is none only a six keeps the turn. |
| FlightChessLaws.ResolvedGoes | server/internal/games/flightchess/rules.go:344-411 | A piece can move unless it is in, or in the hangar without a five or a six, and goes where the distance travelled says. |
| FlightChessLaws.DestinationsStrike | server/internal/games/flightchess/rules.go:424-457 | The cells compared are those the piece touches down on, counted along its way, and for a shortcut the third cell of the other lane. |
| FlightChessLaws.RollAcceptedExactlyWhenDue | server/internal/games/flightchess/rules.go:271-317 | In any game a die is accepted from exactly the player whose roll the log leaves due, until a side has all its pieces in. |
| FlightChessLaws.MoveAcceptedExactlyWhenDue | server/internal/games/flightchess/rules.go:198-265 | In any game a move is accepted from exactly the player whose move is due, with a piece the rolled die can move, as long as what it strikes keeps the mover's captures within 2048. |
| FlightChessLaws.ReplayedWasPlayed | server/internal/games/flightchess/rules.go:113-177 | A log that replays is the log of a game played by just these requests, each under some rule once in force, and replays to that game's position. |
| GomokuProofs.WinCheckIsExact | server/internal/games/gomoku/board.go:66-97 | On a board with no five of a colour, after placing at p the incremental check through p answers as the full rescan does. |
| GomokuProofs.OtherColourIsUntouched | server/internal/games/gomoku/board.go:44-52 | A stone never makes a five for the other colour. |
| GomokuProofs.HasFiveMeansFiveInRow | server/internal/games/gomoku/board.go:87-97 | The rescan finds a win if and only if five consecutive stones of the colour stand on a line. |
| GomokuProofs.RunIsMaximal | server/internal/games/gomoku/board.go:76-82 | A run covers stones of the colour up to the first point that is not one. |
| GomokuProofs.MovePassesValidator | server/internal/games/gomoku/rules.go:112-184 | Every position a move produces passes the snapshot decoder. |
| GomokuProofs.EveryGameReplays | server/internal/games/gomoku/rules.go:65-90 | Every game decodes, replays to its live position, and ends at the latest with the 225th stone. |
| Gomoku.Board.constructor | server/internal/games/gomoku/board.go:27-30 | A fresh board holds the given cells and counts their stones. |
| Gomoku.Board.Place | server/internal/games/gomoku/board.go:44-52 | Places on an empty valid point and counts one more stone, or changes nothing. |
| Gomoku.Board.Run | server/internal/games/gomoku/board.go:76-82 | The walking loop computes the length of the run. |
| Gomoku.Board.WinsAt | server/internal/games/gomoku/board.go:66-74 | True exactly when some direction connects five through the point. |
| Gomoku.Board.Rescan | server/internal/games/gomoku/board.go:87-97 | True exactly when some stone of the colour starts a win. |
| Gomoku.Decode | server/internal/games/gomoku/rules.go:332-366 | Accepts exactly the positions satisfying the decoder's semantic checks. |
| Gomoku.PlaceStone | server/internal/games/gomoku/rules.go:143-164 | Placing on the board object and deciding win, draw or next turn gives the specified state. |
| Gomoku.Apply | server/internal/games/gomoku/rules.go:112-184 | The imperative move equals its specification. |
| Gomoku.Rebuild | server/internal/games/gomoku/rules.go:65-90 | The replay loop equals the fold specification. |
| GomokuLaws.AcceptedExactlyByTheRules | server/internal/games/gomoku/rules.go:112-184 | In any game a move is accepted if and only if the game is on, the point is on the board and not among the moves of the log, and it is the mover's turn by the log, each refusal exactly; it wins exactly with five of the mover's stones in a row in any of eight directions, and else draws exactly as the 225th. |
| GomokuLaws.EveryGameIsTold | server/internal/games/gomoku/rules.go:112-184 | The board is the log: a stone lies exactly where a move put it, in its mover's colour, and the two players alternate. |
| GomokuLaws.RescanFindsEveryRow | server/internal/games/gomoku/board.go:56-97 | Looking along four directions finds exactly the rows of all eight. |
| GomokuLaws.ReplayedWasPlayed | server/internal/games/gomoku/rules.go:65-90 | A log that replays is the log of a game with just these moves, and replays to its position. |
| ChineseCheckers.ValidMovePath | server/internal/games/chinesecheckers/board.go:84-136 | The walk that moves the piece on a copy accepts exactly the paths of the static specification: one step, or jumps on the board with the source removed, over occupied middles onto empty holes, never twice to a hole, with the camp rules. |
| ChineseCheckersProofs.MoveIsReversible | server/internal/games/chinesecheckers/board.go:84-136 | After an accepted move the reversed path passes every non-camp check on the new board. |
| ChineseCheckersProofs.LegalityRotates | server/internal/games/chinesecheckers/board.go:84-136 | Rotating the board by half a turn while swapping colours preserves legality in both directions. |
| ChineseCheckersProofs.MoveKeepsPieces | server/internal/games/chinesecheckers/rules.go:106-159 | A move keeps the number of pieces of each colour. |
| ChineseCheckersProofs.MoveRespectsCamps | server/internal/games/chinesecheckers/rules.go:106-159 | No colour's count in its target camp falls, the opponent's camp is never completed by a move, and nobody comes to rest in a neutral camp. |
| ChineseCheckersProofs.MovePassesValidator | server/internal/games/chinesecheckers/rules.go:231-312 | Every position a move produces passes the snapshot decoder and respects the camps. |
| ChineseCheckersProofs.EveryGameReplays | server/internal/games/chinesecheckers/rules.go:63-87 | Every game decodes, has ten pieces a side and empty neutral camps, and replays to its live position. |
| ChineseCheckersProofs.HomeNeverShrinks | server/internal/games/chinesecheckers/board.go:148-155 | Between any two moments of a run, a colour's count in its target camp does not fall. |
| ChineseCheckersProofs.CampsRotate | server/internal/games/chinesecheckers/board.go:52-82 | The half turn maps neutral holes to neutral holes and each target camp to the other. |
| ChineseCheckers.HoleIsOnItsRow | server/internal/games/chinesecheckers/board.go:24-40 | Every hole index comes back from its point. |
| ChineseCheckers.PointIsAHole | server/internal/games/chinesecheckers/board.go:24-40 | Every point with an index comes back from it. |
| ChineseCheckers.BuildGeometry | server/internal/games/chinesecheckers/board.go:24-40 | Fills the hole table with the row formula's points, and the index with exactly those points and their holes. |
| ChineseCheckers.IsNeutralCamp | server/internal/games/chinesecheckers/board.go:62-82 | The row walk answers the closed form of the four side camps. |
| ChineseCheckers.IsProperPath | server/internal/games/chinesecheckers/board.go:84-97 | Length, bounds and repetition checks. |
| ChineseCheckersRules.HasCompletedCamp | server/internal/games/chinesecheckers/board.go:148-155 | True exactly when every hole of the target camp holds the colour. |
| ChineseCheckersRules.Decode | server/internal/games/chinesecheckers/rules.go:231-312 | Accepts exactly the positions satisfying the decoder's semantic checks. |
| ChineseCheckersRules.Apply | server/internal/games/chinesecheckers/rules.go:106-159 | The imperative move equals its specification. |
| ChineseCheckersRules.Rebuild | server/internal/games/chinesecheckers/rules.go:63-87 | The replay loop equals the fold specification. |
| ChineseCheckersLaws.AcceptedExactlyIfItMayTravel | server/internal/games/chinesecheckers/rules.go:106-159 | In any game a move is accepted if and only if the game is on, it is the mover's turn by the log, and the piece may travel so on the board, each refusal exactly; it moves that piece alone and wins exactly if it brings the last one home. |
| ChineseCheckersLaws.LegalExactlyIfItMayTravel | server/internal/games/chinesecheckers/board.go:84-146 | The legal paths measured on the plane: one step, or a chain of jumps through different empty holes, each over the hole halfway that holds a piece other than the moving one; not into a wing, not out of the camp bound for. |
| ChineseCheckersLaws.AdjacentIsOneStep | server/internal/games/chinesecheckers/board.go:138-141 | Two holes are adjacent exactly if dx² + 3dy² is 4, x counted in half holes: one step in any of six directions. |
| ChineseCheckersLaws.JumpIsTwoSteps | server/internal/games/chinesecheckers/board.go:143-146 | They are a jump apart exactly if it is 16; a jump is two equal adjacent steps over a hole of the board, and that hole is the one looked at. |
| ChineseCheckersLaws.HolesAreTheStar | server/internal/games/chinesecheckers/board.go:17-40 | The holes are the lattice points of two overlapping triangles. |
| ChineseCheckersLaws.HolesAreNumberedInOrder | server/internal/games/chinesecheckers/board.go:17-40 | They are numbered row by row and along each row. |
| ChineseCheckersLaws.CampsAreThePoints | server/internal/games/chinesecheckers/board.go:42-82 | The target camps are the upper and lower point of the star, the neutral ones its other four. |
| ChineseCheckersLaws.GamesStartAcross | server/internal/games/chinesecheckers/board.go:157-166 | Both sides start in the point across from their target. |
| ChineseCheckersLaws.ReplayedWasPlayed | server/internal/games/chinesecheckers/rules.go:63-87 | A log that replays is the log of a game with just these moves, and replays to its position. |
| ReversiProofs.FlipsAreTheFlanked | server/internal/games/reversi/rules.go:71-94 | The flipped cells are exactly those lying between the new disc and another of its colour along one of eight lines of opposing discs, each listed once. |
| ReversiProofs.FlipsAlongSpec | server/internal/games/reversi/rules.go:76-92 | The same along one direction. |
| Reversi.FlipsAreOpposing | server/internal/games/reversi/rules.go:71-94 | Only opposing discs are flipped. |
| ReversiProofs.CountsAfterMove | server/internal/games/reversi/rules.go:107-118 | A move adds one disc and the flipped ones to the mover, and takes the flipped ones from the opponent. |
| ReversiProofs.OpeningHasAReply | server/internal/games/reversi/rules.go:197-219 | After each of the four openings white can move, so both seats are bound by revision two. |
| ReversiProofs.MovePassesValidator | server/internal/games/reversi/rules.go:225-299 | Every position a move produces from a reachable one passes the snapshot decoder and keeps the reachability invariant. |
| ReversiProofs.EveryGameReplays | server/internal/games/reversi/rules.go:130-149 | Every game is reachable, decodes, and replays to its live position. |
| ReversiProofs.EveryGameEnds | server/internal/games/reversi/rules.go:150-224 | Over every run: discs total revision plus four, an active side has a legal move, a finished game has none for either, both players are bound by revision two, and play ends within 60 moves. |
| ReversiProofs.LegalRowsSpec | server/internal/games/reversi/rules.go:95-106 | The legal list holds exactly the points with something to flip. |
| Reversi.FlipLine | server/internal/games/reversi/rules.go:80-91 | The walk along one line keeps its discs exactly when it ends on the mover's colour. |
| Reversi.FlipsOf | server/internal/games/reversi/rules.go:71-94 | The nested loops collect the flips of all eight directions in order. |
| Reversi.LegalMoves | server/internal/games/reversi/rules.go:95-106 | The scan collects the legal points in board order. |
| Reversi.CountDiscs | server/internal/games/reversi/rules.go:107-118 | Counts both colours. |
| Reversi.Turn | server/internal/games/reversi/rules.go:191-194 | In place, the new disc and the flipped cells take the mover's colour and nothing else changes. |
| Reversi.PlayDisc | server/internal/games/reversi/rules.go:189-219 | Placing, turning, counting, passing and ending give the specified state. |
| Reversi.Apply | server/internal/games/reversi/rules.go:150-224 | The imperative move equals its specification. |
| Reversi.Rebuild | server/internal/games/reversi/rules.go:130-149 | The replay loop equals the fold specification. |
| ReversiLaws.AcceptedExactlyIfItOutflanks | server/internal/games/reversi/rules.go:150-224 | In any game a disc is accepted if and only if the game is on, the player of the side to move places it, and it outflanks a disc in some direction. |
| ReversiLaws.MoveFollowsTheRules | server/internal/games/reversi/rules.go:150-224 | It turns exactly the discs it outflanks; the turn passes unless the other side has no move; when neither has one the side with more discs has won. |
| ReversiLaws.FlipsAreTurned | server/internal/games/reversi/rules.go:71-94 | The flips are the outflanked discs of all eight directions, on coordinates. |
| ReversiLaws.SomeMoveMeansLegal | server/internal/games/reversi/rules.go:95-106 | The legal list is empty exactly when the side can place no disc. |
| ReversiLaws.ReplayedWasPlayed | server/internal/games/reversi/rules.go:130-149 | A log that replays is the log of a game with just these moves, and replays to its position. |
| RpsProofs.ChoicesCommute | server/internal/games/rps/rules.go:139-215 | Two choices made at the same revision are accepted in either order, reach the same state and reveal the same round, won by the choice that beats the other. |
| RpsProofs.EveryMatchIsFair | server/internal/games/rps/rules.go:84-120 | Over every run of two players scores and choices are theirs, each round takes two choices, the match ends exactly when one has the rounds it takes, and the log replays to the live position. |
| RpsProofs.ChoiceKeepsFair | server/internal/games/rps/rules.go:139-215 | Each choice by either player keeps that invariant. |
| RpsProofs.ChoicePassesDecoder | server/internal/games/rps/rules.go:278-302 | The engine alone accepts any number of players. Its answer passes its own decoder if and only if the choice opens a round, or nobody wins the round it closes, or its winner has scored just once before, or fewer than two players have scored. |
| RpsProofs.ThirdScorerBreaksTheGame | server/internal/games/rps/rules.go:278-302 | The failing game, best of three with three players: all six choices are accepted, the position does not decode, and the log does not replay. |
| RpsProofs.EveryGameReplays | server/internal/games/rps/rules.go:84-120 | The log of any game, with any number of players, replays to its live position if and only if every accepted choice met a guard its caller could check before (it opens a round, or nobody wins the one it closes, or the winner is one of at most two scorers); otherwise replay fails. Equally, if and only if every round the log reveals names at most two scorers. |
| RpsProofs.LateChoiceBelongsToItsRound | server/internal/games/rps/rules.go:139-215 | A choice made without having seen the opponent's lock is accepted after it, in the round its sender saw. |
| RpsProofs.LockedChoiceIsHidden | server/internal/matches/hub.go:1242-1305 | Neither the published event nor the viewer's snapshot depends on which choice the opponent locked. |
| RpsProofs.ViewTellsExactly | server/internal/matches/hub.go:1242-1282 | Two states look the same to a viewer if and only if they agree on round, scores, last reveal, who has chosen, and the viewer's own choice. |
| Rps.Compare | server/internal/games/rps/rules.go:364-372 | Positive exactly when the left choice beats the right, negative exactly when the right beats the left. |
| Rps.SortedPair | server/internal/games/rps/rules.go:165-176 | Gives the two players in increasing order. |
| Rps.RevealRound | server/internal/games/rps/rules.go:165-213 | Scores, round and ending do not depend on which player chose first. |
| Rps.Apply | server/internal/games/rps/rules.go:139-215 | The imperative choice equals its specification. |
| Rps.Rebuild | server/internal/games/rps/rules.go:84-120 | The replay loop equals the fold specification. |
| RpsLaws.AcceptedExactlyOncePerRound | server/internal/games/rps/rules.go:139-215 | In any game a choice is accepted until somebody has won the rounds it takes, from everybody but the one whose choice is waiting, each refusal exactly; the first of a round is locked, the second reveals both, with the winner, the scores as the log counts them, and the end of the match. |
| RpsLaws.BeatsTheOneBefore | server/internal/games/rps/rules.go:364-372 | Each choice beats exactly the one before it in the circle of rock, paper and scissors. |
| RpsLaws.ReplayedWasPlayed | server/internal/games/rps/rules.go:84-120 | A log that replays is the log of a game with just these choices, and replays to its position. |
| BattleshipProofs.FleetCoversSeventeen | server/internal/battleship/rules.go:17-50 | A complete valid fleet covers exactly 17 distinct cells, all on the grid. |
| BattleshipProofs.SunkAtSeventeen | server/internal/battleship/rules.go:107-120 | All ships are sunk if and only if 17 shots have hit, and more never do. |
| BattleshipProofs.FiringWinsAtSeventeen | server/internal/battleship/rules.go:162-186 | A shot ends the match if and only if it is the 17th hit, and then the shooter has won. |
| BattleshipProofs.StepKeepsFair | server/internal/battleship/rules.go:131-215 | Every action keeps the invariant: fleets valid, recorded hits true, turn and counts in step. |
| BattleshipProofs.ReadyFleetIsFrozen | server/internal/battleship/rules.go:131-161 | No action of either player changes a fleet that is ready. |
| BattleshipProofs.FairMatches | server/internal/battleship/rules.go:131-215 | In every such state the shot counts determine the turn, a ready fleet covers 17 cells, and there are at most 199 shots in all. |
| BattleshipProofs.HundredShots | server/internal/battleship/rules.go:162-186 | A player who has fired at all hundred cells has 17 hits, so both can never have done so. |
| BattleshipProofs.BattleViewShowsTheSunk | server/internal/battleship/rules.go:121-130 | In battle an enemy ship is in the view if and only if every one of its cells has been hit. |
| BattleshipProofs.ShipsAfloatAreHidden | server/internal/battleship/rules.go:121-130 | Until the match is over, exchanging any of the enemy's unsunk ships, wherever they are listed, for other unsunk ones changes nothing in the view. |
| BattleshipProofs.PlacementHidesEverything | server/internal/battleship/rules.go:121-130 | During placement no enemy ship is shown. |
| Battleship.CheckFleet | server/internal/battleship/rules.go:31-50 | The loop with its set of taken cells accepts exactly the valid fleets: known distinct ids, on the grid, pairwise apart, five when complete. |
| Battleship.AddShip | server/internal/battleship/rules.go:31-50 | One ship is added exactly when all its cells are free and on the grid, and then exactly those cells are taken. |
| Battleship.IsSunk | server/internal/battleship/rules.go:107-120 | True exactly when every cell of the ship has a hit. |
| Battleship.Game.Place | server/internal/battleship/rules.go:138-161 | Stores the fleet and starts the battle when both are ready, or refuses and changes nothing. |
| Battleship.Game.Shoot | server/internal/battleship/rules.go:162-186 | Records the shot, ends the match or passes the turn, or refuses and changes nothing. |
| Battleship.Game.Apply | server/internal/battleship/rules.go:131-215 | The whole new state of every action, the old one on every refusal. |
| Battleship.Game.ViewFor | server/internal/battleship/rules.go:121-130 | The view of the specification. |
| BattleshipService.ActionsAreExactlyOnce | server/internal/battleship/service.go:85-158 | Repeating an action id by the same player with the same content, after any further operations, changes nothing and answers the current view; by anyone else or with other content it is refused. |
| BattleshipService.RunKeepsSound | server/internal/battleship/service.go:85-158 | Over every run each match is fair, its revision counts its ledger entries, and it has a next match exactly when both players asked, with the same seats, the other player first, and shared with no other match. |
| BattleshipService.ActKeepsSound | server/internal/battleship/service.go:85-158 | One action keeps that. |
| BattleshipService.CreateKeepsSound | server/internal/battleship/service.go:26-54 | So does creating a match. |
| BattleshipService.CreateIsIdempotent | server/internal/battleship/service.go:26-54 | Creating an existing id changes nothing and conflicts exactly when the seats differ. |
| BattleshipService.RunKeeps | server/internal/battleship/service.go:85-158 | No match or ledger entry is ever lost, and neither seats nor entries ever change. |
| BattleshipService.Service.CreateMatch | server/internal/battleship/service.go:26-54 | The in-place transaction equals the specification above. |
| BattleshipService.Service.ActOnMatch | server/internal/battleship/service.go:85-158 | The in-place transaction equals the specification above, rematch creation included. |
| BattleshipLaws.AcceptedExactlyIfItMay | server/internal/battleship/rules.go:131-215 | In every fair match an action is accepted if and only if its player may take it in that phase, and it does exactly what it says: the whole new state for placing, shooting, cancelling, resigning, offering and declining an end, and asking for a rematch. |
| BattleshipLaws.FleetIsAcceptedIfGood | server/internal/battleship/rules.go:9-50 | The accepted fleets are those with one ship of each length 5, 4, 3, 3, 2, all on the ten by ten squares, none covered twice. |
| BattleshipLaws.HitMeansCovered | server/internal/battleship/rules.go:162-178 | A shot hits exactly if some ship covers its square. |
| BattleshipLaws.TakenInExactlyAtItsRevision | server/internal/battleship/service.go:85-158 | A new action of one of the two players is taken in if and only if the revision it names is the number of actions taken in before and the rules allow it; any other revision is a conflict. |
| BattleshipLaws.RevisionsDiffer | server/internal/battleship/service.go:85-158 | Over every run, of two actions taken into one match the later one names the greater revision. |
| BattleshipLaws.AnswersShowTheOwnSeat | server/internal/battleship/service.go:55-84 | A match is shown to its two players only, to each from the own seat. |
| BattleshipLaws.CreatedExactlyForAnEnabledOpponent | server/internal/battleship/service.go:26-54 | A match is created, or found again, exactly for a different enabled opponent under an identifier that is free or already theirs. |

## Left out

* JSON and bytes: payloads are datatypes, so strict decoding, size limits and the empty snapshot
  standing for the initial one are not modelled.
* Identifiers are natural numbers: the two spellings of identifier validity collapse into one.
* SQL, the connection pool, busy retries and deadlines: a transaction is one atomic method; a
  presence store call may fail and then writes nothing.
* Hashing, tokens' plaintext, randomness: hashes, epochs, the die, the coin, match ids and seat
  colours are parameters.
* Account transfer beyond its effect on sessions, tickets and tokens; login sessions.
* Read-only lists: current match, opponents, history, battleship lists.
* The hub is modelled for one match; acknowledgements, pings, timeouts and shutdown are left out.
  Connections found slow are closed by separate `Close` steps, at any time.
* Wire envelopes, except what the rock-paper-scissors projection shows and hides.
* A restart forgets all presence connections without announcing anybody; announcements are counted
  per process.
* The service never writes events under the older flight-chess rules, so those appear in
  `FlightChessRuns` and `FlightChessCap` only; in the service model new events follow today's rules.
* Loops over Go maps have no fixed order; where the model must choose one it takes any element.
- MatchTheorems.TheServiceHolds: stated for histories whose clock was never behind a stored match's creation; `MatchClock.CommitLoadsExactlyIfClockHolds` says exactly what happens otherwise. An identifier drawn twice or no free hash in the retry budget is an internal error in the code too.
- MatchRuns.EveryMatchRebuilds: likewise.
- MatchRuns.NeverInternal: likewise.
- HubProofs.NoGaps: stated for connections that have lost no message; `HubLosses` says when they do, and what follows.
- MatchCredentials.DeadForGood: stated for runs that do not draw the same hash again, as random hashes do not.
