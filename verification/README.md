# A verified model of the mafia game server

The server runs a party game of hidden roles. A room fills up, the host deals the roles, and
the game cycles through NIGHT, DAY_DISCUSSION, VOTING and RESULT until one side has won. Many
server instances share one store: a token lock per game orders their commands, a registry
answers repeated requests, a sorted set of deadlines drives the automatic phase changes, and
every command appends events to a log. The browser folds the messages it receives into its
own picture of the game.

The model has three layers.

* **The game itself.** `Domain`, `Players`, `VoteTally`, `GameRules`, `RoomRules` and
  `GameSpec` say what one input (a client command, a timer step, a lost or returning socket)
  does to a game: its room, its session and its event log. The classes
  `SessionService.GameSessionService`, `RoomsServices.RoomsService`,
  `EventRecorder.GameEventRecorder` and `CommandService.GameCommandService` are the services
  that do it call by call on stored state, including both copies of the composite phase step,
  and every method is proved to leave exactly the state `GameSpec.Exec` describes.
  `StepContracts` says of every input, without those definitions, who may give it, which
  refusal comes first, and what it stores, records and sends. `Invariants`, `EventSourcing`
  and `GameRuns` prove what holds after every run, and `PlayedRuns` plays the runs that reach
  the cases the other modules speak of.
* **The concurrent shell.** `GameLock`, `LockedSections`, `RequestIdempotency`, `PhaseTimers`,
  `GameClock`, `ClockSections`, `ConnectionStates`, `ConnectionRaces` and `EventRecorder` are
  state machines over the separate reads and writes of any number of instances. `Gateway` is the code of one instance, proved
  to make the steps of those machines. `AtomicCommands` closes the loop: every timely
  interleaving under the lock leaves the room, session and log of a run of `GameSpec`, and
  `RequestOrder` puts every request into that run at most once.
* **The derived views.** `EventSourcing` (the log), `ChatCache` (recent messages),
  `AvailableActions` (what the server offers), `ClientView` (what the page shows),
  `RoleSecrecy` (whose role it knows) and `GameTimeline` (what the endpoint serves) are proved
  against the session.

The results are the lemmas over all runs and interleavings. The rows for class methods say
that the code of a service is the function those lemmas speak of.

Time is an integer number of milliseconds passed in by the caller, as are ids and tokens.
Random choices (the shuffle's indices, the tie order of equal vote counts) are arbitrary, so
what is proved holds for each of them.

## What turned out not to hold, and exactly when it does

* `docs/REDIS_KEYS.md:51` says the game lock prevents duplicate timer transitions. It does not:
  the deadline is compared before the lock is taken, so from every world with a due game two
  pollers can advance it twice (`GameClock.TwoPollersAdvanceTwice`), and such a world is reached
  from the empty one (`PlayedRuns.DoubleAdvanceIsReached`). A poller's firing is its deadline's
  own advance if and only if nobody, poller or host, advanced the game between the poller's
  comparison and its firing (`GameClock.FiringIsItsOwnAdvanceIff`), and of all firings of one
  deadline at most one is (`GameClock.DeadlineIsSpentOnce`).
* A vote can be accepted and not recorded: processed request ids are kept per game and not per
  user. An accepted vote is recorded if and only if its id is new to the game
  (`GameRuns.AcceptedVoteIsRecordedIff`); with a used id every vote among players is accepted and
  changes nothing (`GameRuns.ReusedRequestIdSwallowsVote`), as in a played game
  (`PlayedRuns.SwallowedVoteIsPlayed`).
* The lock keeps updates from being lost only while no section outlives its lock
  (`LockedSections.NoLostUpdates`). The race that overwrites a saved vote exists if and only if
  at least the lock's lifetime passes inside the first section
  (`LockedSections.OutlivedLockLosesVote`), and then it happens in a played game
  (`PlayedRuns.LostVoteIsPlayed`).
* `docs/SOCKET_PROTOCOL.md:178` and `:255` say nobody may choose themselves at night, while
  line 253 allows the doctor to. Of the players who may act, exactly the doctor may
  (`GameRuns.SelfChoiceIff`, `PlayedRuns.SelfChoiceIsPlayed`).
* `docs/GAME_RULES.md:80` says a finished game accepts no game action. It accepts exactly its
  players' connection changes, a seated user's leaving, the chat of its dead and command types
  the server does not know (`GameRuns.FinishedAcceptsIff`, `PlayedRuns.FinishedGameIsPlayed`);
  none of them changes roles, statuses, votes or night slots (`GameRuns.FinishedIsFinal`).
* `docs/EVENT_CATALOG.md:15` makes an assigned role private during the game. The server has
  four ways to tell it. The deal tells each player the own role. An accepted police choice tells
  the police the chosen player's (`RoleSecrecy.RoleIsToldIff`). A reconnect snapshot tells its
  page every role. From these, a page knows another user's role if and only if it is the dealt
  one and the page was sent a snapshot of the session or heard the answer to its own user's
  investigation of that player (`RoleSecrecy.RolesKnownIff`). And the timeline endpoint filters
  on the visibility after the game only, whoever asks: from the start on it lists exactly the
  dealt roles (`GameTimeline.TimelineListsRoles`), so an unfinished game's timeline keeps to
  what is public during the game if and only if the game has not started
  (`GameTimeline.TimelineIsPublicIff`).
* A player's status in the session can disagree with the user's connection record for good.
  They agree if and only if the handler that marked the session last wrote the status that was
  written to the record last (`ConnectionRaces.StatusesAgreeIff`). Once all handlers are done
  there are two ways to disagree. The marks were made out of order: an old socket's handler
  marks after a newer one's (`ConnectionRaces.OvertakenMark`). Or the last write is of somebody
  who marks nothing: a user who left the room of a running game closes the socket
  (`ConnectionRaces.LeavingThenClosing`), a socket closed before the game started
  (`ConnectionRaces.StartAgreesIff`), the lock was busy, or two overlapping openings took the
  record out of the room (`ConnectionRaces.OverlappingOpeningsLoseTheRoom`). Out of the room the
  session's status is frozen (`ConnectionRaces.OutOfRoomIsFrozen`).

## Model

| member | source | states |
|---|---|---|
| EventSourcing.ExecKeepsInv | apps/api/src/game-commands/game-command.service.ts:86-114 | every input, accepted or rejected, keeps the game invariant: dealt roster, living voters and targets, FINISHED exactly on a win, log replaying to the session, phase and turn counted by the log |
| EventSourcing.RunKeepsInv | apps/api/src/game-commands/game-command.service.ts:86-114 | the same after every run |
| EventSourcing.ReplayPhase | apps/api/src/game-commands/game-command.service.ts:634-746 | the at most three events of a phase step rebuild the settled session from the one before it |
| EventSourcing.ReplayRoles | apps/api/src/game-commands/game-command.service.ts:383-476 | GameStarted and the RoleAssigned events alone rebuild the whole new session |
| GameRuns.LogRebuildsSession | apps/api/src/game-commands/game-command.service.ts:634-683 | after every run, folding the log gives back the session's roles, deaths, phase, turn, deadline, votes, night targets and processed requests |
| GameRuns.PhaseTurnAndWinner | apps/api/src/game-session/game-state-machine.ts:22-88 | after k phase changes the phase is the k-th of the cycle and the turn (k+3) div 4; FINISHED exactly when no living player is mafia or two players are left |
| GameRuns.DeathBound | apps/api/src/game-session/game-session.service.ts:531-586 | deaths and living players add up to the roster, at most all but two die, and with all but two dead the game is over |
| GameRuns.KillingGameEnds | apps/api/src/game-session/game-session.service.ts:569-586 | a game of n players in which every round kills somebody is finished after n - 2 rounds |
| GameRuns.ResolutionNeverFails | apps/api/src/game-session/game-session.service.ts:391-482 | in every reachable unfinished game a phase step succeeds, the "target not found" and "not alive" branches are dead, and the killed or executed player was alive |
| GameRuns.FinishedIsFinal | apps/api/src/game-session/game-state-machine.ts:50-88 | no input ever leaves FINISHED or changes roles, statuses, votes or night slots afterwards |
| GameRuns.FinishedAcceptsIff | apps/api/src/game-commands/game-command.service.ts:86-114 | a finished game accepts exactly its players' connection changes, a seated user's leaving, ghost chat of its dead, and unknown command types |
| GameRuns.SelfChoiceIff | apps/api/src/game-session/game-session.service.ts:610-680 | of the living players of the right role with their slot free, exactly the doctor may choose themselves |
| GameRuns.AtMostOneDies | apps/api/src/game-session/game-session.service.ts:531-552 | one input kills at most one player, revives nobody and keeps every role |
| GameRuns.AcceptedVoteIsRecordedIff | apps/api/src/game-session/game-session.service.ts:294-360 | an accepted vote is recorded if and only if its request id is new to the game; otherwise nothing changes |
| GameRuns.ReusedRequestIdSwallowsVote | apps/api/src/game-session/game-session.service.ts:294-318 | in a voting, a vote with a used request id is accepted without any change if and only if voter and target are players |
| PlayedRuns.SwallowedVoteIsPlayed | apps/api/src/game-session/game-session.service.ts:294-318 | any four or more users can play to where a living player who never voted has a vote accepted and lost |
| PlayedRuns.StartedGame | apps/api/src/game-commands/game-command.service.ts:356-495 | any four or more in a room, with seats left free or not, can get ready and be started with every deal |
| PlayedRuns.FinishedGameIsPlayed | apps/api/src/game-commands/game-command.service.ts:1507-1570 | a played game that is finished, whose executed mafia still talks to the dead and leaves |
| PlayedRuns.SelfChoiceIsPlayed | apps/api/src/game-session/game-session.service.ts:659-661 | in a played first night a player's choice of themselves is accepted exactly from the doctor |
| PlayedRuns.LostVoteIsPlayed | apps/api/src/realtime/game-command-lock.service.ts:18-36 | in a played voting, a section that outlives its lock lets a saved vote be overwritten |
| PlayedRuns.DoubleAdvanceIsReached | apps/api/src/realtime/realtime.gateway.ts:454-486 | a run from the empty world, through joins, start and host commands, in which two pollers spend one deadline twice |
| Invariants.PhaseStepSettles | apps/api/src/game-commands/game-command.service.ts:497-632 | advance, resolve and finish together are one total step with one described result, whatever was voted and chosen |
| Invariants.SettledKeepsInv | apps/api/src/game-session/game-session.service.ts:391-482 | that result keeps the session invariant |
| Invariants.VictimIsLiving | apps/api/src/game-session/game-session.service.ts:443-482 | whoever a step is about to kill is alive, and at night is not the mafia |
| Invariants.NightWinIsMafia | apps/api/src/game-session/game-session.service.ts:391-441 | a win declared by a night resolution is the mafia's |
| Invariants.DealtRoster | apps/api/src/game-commands/game-command.service.ts:387-405 | a deal seats each participant exactly once, with one mafia, one doctor, one police and citizens for the rest |
| Invariants.VoteKeepsInv | apps/api/src/game-session/game-session.service.ts:278-371 | an accepted vote keeps the session invariant |
| Invariants.NightActionKeepsInv | apps/api/src/game-session/game-session.service.ts:610-680 | an accepted night action keeps it; the mafia's target is never mafia |
| Invariants.ConnectionKeepsInv | apps/api/src/game-session/game-session.service.ts:160-234 | losing and regaining a connection keeps it |
| Players.DeathOfOne | apps/api/src/game-session/game-session.service.ts:531-552 | the mapped death changes exactly one player; living counts drop by one on the victim's side |
| Players.WinnerMeans | apps/api/src/game-session/game-session.service.ts:569-586 | who wins, said without counting sides: citizens when no living mafia is left, mafia when it is among the last two alive |
| GameRules.NightVictim | apps/api/src/game-session/game-session.service.ts:391-425 | the night's victim is the attacked player unless the doctor protects that very player |
| GameRules.PluralityWinner | apps/api/src/game-session/game-session.service.ts:554-567 | the reference choice: the target with strictly more votes than every other, if there is one |
| VoteTally.CountVotes | apps/api/src/game-session/game-session.service.ts:373-381 | one entry per voted target with exactly its number of voters, adding up to the number of votes, in whatever order votes are read |
| VoteTally.SortByCount | apps/api/src/game-session/game-session.service.ts:381-388 | sorting keeps the entries and orders them by descending count under every tie-break |
| VoteTally.CalculateVoteTally | apps/api/src/game-session/game-session.service.ts:373-389 | the two together are a tally |
| VoteTally.SelectionIsPlurality | apps/api/src/game-session/game-session.service.ts:554-567 | every tally of the same votes selects the same player, the strict leader, and nobody on a tie |
| RoomRules.RoomOperationsKeepInv | apps/api/src/rooms/rooms.service.ts:111-290 | no operation seats anybody twice or exceeds the capacity; a started room has at least four, all ready, and was started by its host |
| RoomRules.JoinAndLeaveMoveOneUser | apps/api/src/rooms/rooms.service.ts:111-162 | joining seats exactly that user, and leaving, allowed exactly to the seated, unseats exactly that user |
| RoomRules.ReadyChangesOneUser | apps/api/src/rooms/rooms.service.ts:226-261 | a ready change sets one flag and touches nobody else |
| StepContracts.AdvanceContract | apps/api/src/rooms/rooms.service.ts:201-224 | ADVANCE_PHASE is accepted if and only if the game has started, is not over and the host asks; otherwise the first failing check is the error and nothing changes; what an accepted one stores, records and tells is said outright |
| StepContracts.TimerContract | apps/api/src/game-commands/game-command.service.ts:770-1004 | the timer's step is accepted if and only if there is a session that is not over, and does the same in nobody's name |
| StepContracts.PhaseContract | apps/api/src/game-commands/game-command.service.ts:497-746 | a phase step of any invariant game: phase, turn, the deadline of the phase entered, exactly the attacked and unprotected or the strict leader of the voting dead, killed at night and executed in a voting, in the log and in the messages |
| StepContracts.WinnerIsTold | apps/api/src/game-commands/game-command.service.ts:735-745 | of all accepted inputs only phase steps announce a winner, and they announce exactly the winner of the resulting players |
| StepContracts.LoggedWinnerHasWon | apps/api/src/game-commands/game-command.service.ts:672-683 | after every run the log names a team as winner if and only if that team has won |
| StepContracts.StartContract | apps/api/src/rooms/rooms.service.ts:164-199 | START_GAME is accepted if and only if the room waits, its host asks, at least four are seated and all are ready, whether or not seats are free; the session, the private role of each and the first deadline |
| StepContracts.JoinContract | apps/api/src/rooms/rooms.service.ts:111-162 | joining is refused by a started room and, for those not yet seated, by a full one; a seated user keeps seat and ready flag, and host and status stay |
| StepContracts.LeaveContract | apps/api/src/rooms/rooms.service.ts:263-290 | leaving is refused to exactly the unseated; host, status and the others' order and flags stay |
| StepContracts.ReadyContract | apps/api/src/rooms/rooms.service.ts:226-261 | a ready change needs a waiting room and a seat and sets that one flag |
| StepContracts.VoteContract | apps/api/src/game-commands/game-command.service.ts:1006-1087 | a vote: the first failing check is the error; an accepted new one is recorded and logged, one with a used id changes nothing |
| StepContracts.NightContract | apps/api/src/game-commands/game-command.service.ts:1089-1220 | a night action: the first failing check is the error, and only the police is answered, with the role the target has |
| StepContracts.ChatContract | apps/api/src/game-commands/game-command.service.ts:1222-1570 | a message is accepted if and only if its sender may speak there: the seated in the lobby of a waiting room, by day the living, at night the living mafia, among the ghosts the dead |
| StepContracts.ChatRefusals | apps/api/src/game-commands/game-command.service.ts:1280-1570 | and otherwise the first failing check of its channel is the error |
| StepContracts.SocketContract | apps/api/src/game-session/game-session.service.ts:160-234 | a lost or returning socket changes the connection of its own player only, and only a loss is told |
| RoleDeal.Shuffle | apps/api/src/game-commands/game-command.service.ts:65-74 | the in-place loop gives the order the drawn indices determine |
| RoleDeal.EveryOrder | apps/api/src/game-commands/game-command.service.ts:65-74 | every order of the items is one the shuffle can give |
| RoleDeal.OneDrawPerOrder | apps/api/src/game-commands/game-command.service.ts:65-74 | different draws give different orders of distinct items, so uniform draws make every order equally likely |
| RoleDeal.DealtIff | apps/api/src/game-commands/game-command.service.ts:1693-1707 | the deals the server can make are exactly those that give each participant one role and hand out the whole pool |
| RoleDeal.BuildRoleAssignments | apps/api/src/game-commands/game-command.service.ts:1693-1707 | for all draws everybody gets a role from the pool, and three or more participants share out the whole pool |
| SessionService.GameSessionService.StartGameSession | apps/api/src/game-session/game-session.service.ts:91-118 | stores the new session and touches no other game |
| SessionService.GameSessionService.AdvancePhase | apps/api/src/game-session/game-session.service.ts:120-138 | saves the advanced session with its deadline and reports both ends of the change, or reports the error and saves nothing |
| SessionService.GameSessionService.FinishGame | apps/api/src/game-session/game-session.service.ts:140-154 | saves the finished session, or reports the error and saves nothing |
| SessionService.GameSessionService.ResolveNightOutcome | apps/api/src/game-session/game-session.service.ts:391-441 | saves the night's resolution, or reports the error and saves nothing |
| SessionService.GameSessionService.ResolveVotingOutcome | apps/api/src/game-session/game-session.service.ts:443-482 | through the sorted tally, saves the resolution the plurality choice prescribes |
| SessionService.GameSessionService.Cast | apps/api/src/game-session/game-session.service.ts:278-371 | saves exactly the votes that are accepted and new |
| SessionService.GameSessionService.SelectTarget | apps/api/src/game-session/game-session.service.ts:610-680 | saves exactly the accepted night actions |
| SessionService.GameSessionService.MarkPlayer | apps/api/src/game-session/game-session.service.ts:160-234 | saves exactly that player's new connection state; the gateway's two handlers of lost and returning sockets call it |
| RoomsServices.RoomsService.CreateRoom | apps/api/src/rooms/rooms.service.ts:53-96 | exactly the sizes of two and more, eight by default, give a room, which satisfies the room invariant |
| RoomsServices.RoomsService.JoinRoom | apps/api/src/rooms/rooms.service.ts:111-162 | the in-place edit and save is the joining rule, errors included |
| RoomsServices.RoomsService.LeaveRoom | apps/api/src/rooms/rooms.service.ts:263-290 | likewise for leaving |
| RoomsServices.RoomsService.SetReady | apps/api/src/rooms/rooms.service.ts:226-261 | likewise for readiness |
| RoomsServices.RoomsService.StartGame | apps/api/src/rooms/rooms.service.ts:164-199 | likewise for starting |
| CommandService.GameCommandService.HandleCommand | apps/api/src/game-commands/game-command.service.ts:86-114 | a dispatched command, of a known type or not, takes the three stores from one game to exactly the specified next one, with the specified effects or error, and touches no other game |
| CommandService.GameCommandService.HandleStartGame | apps/api/src/game-commands/game-command.service.ts:356-495 | starting deals some roles a shuffle can deal and writes the specified events and messages |
| CommandService.GameCommandService.HandleNextPhase | apps/api/src/game-commands/game-command.service.ts:497-768 | the host's copy of the phase step, call by call, is the composite step |
| CommandService.GameCommandService.AdvancePhaseAutomatically | apps/api/src/game-commands/game-command.service.ts:770-1004 | the timer's separate copy is the same composite step without a caller |
| CommandService.GameCommandService.RecordPhase | apps/api/src/game-commands/game-command.service.ts:634-746 | the events and effects a settled step writes, in order |
| CommandService.GameCommandService.HandleCastVote | apps/api/src/game-commands/game-command.service.ts:1006-1087 | an event is written exactly for the votes that were recorded |
| CommandService.GameCommandService.HandleNightTargetCommand | apps/api/src/game-commands/game-command.service.ts:1089-1220 | an accepted night action is saved and logged; only the police is told a role, privately |
| CommandService.GameCommandService.HandleSendChatMessage | apps/api/src/game-commands/game-command.service.ts:1222-1570 | the four chat handlers: who may speak when, the event and the recipients |
| EventRecorder.NumbersAreGapFree | apps/api/src/game-events/game-event-recorder.service.ts:24-52 | with any number of recorders reading the maximum and inserting later, each game's rows are numbered 1..n in insert order |
| EventRecorder.TimelineIsInsertOrder | apps/api/src/game-events/game-event-recorder.service.ts:54-63 | ordering by number gives the successful inserts in insert order |
| EventRecorder.TakenIsUpToCount | apps/api/prisma/schema.prisma:42 | without gaps the numbers the unique key refuses are exactly 1..n |
| EventRecorder.AloneAppends | apps/api/src/game-events/game-event-recorder.service.ts:24-52 | a recorder alone, reading and then inserting, finds its number free and appends one row |
| EventRecorder.GameEventRecorder.RecordEvent | apps/api/src/game-events/game-event-recorder.service.ts:24-52 | one call appends one row to its game's log, as the read and insert steps of the interleaved recorders do, keeps the numbering, and leaves other logs alone |
| LockedSections.NoLostUpdates | apps/api/src/realtime/realtime.gateway.ts:544-588 | in every timely interleaving of loads and saves at most one instance is inside a game's section, the quiescent room, session and log are the inputs run whole in acquire order, every handler's answer, effects or error, is its step's, and the version counts the saves |
| LockedSections.ProgramIsWhole | apps/api/src/game-commands/game-command.service.ts:86-114 | the load-and-save operations of every handler on room, session and log, uninterrupted, are the input's whole step with its effects or error, errors half-way included |
| LockedSections.SaveRaisesVersion | apps/api/src/game-session/game-session.service.ts:348-362 | every save raises the version by one |
| LockedSections.StaleReleaseIsHarmless | apps/api/src/realtime/game-command-lock.service.ts:55-64 | in every run, timely or not, a holder whose lock expired cannot free the one that came after it |
| LockedSections.OutlivedLockLosesVote | apps/api/src/realtime/game-command-lock.service.ts:18-36 | the race of two votes exists if and only if the lock's lifetime passes inside the first section, and each such run overwrites the saved vote |
| AtomicCommands.InterleavingIsPlayed | apps/api/src/realtime/realtime.gateway.ts:544-722 | from a new room on, whenever no section is in progress, the room, session and log many interleaved instances stored are those of the run in acquire order, and the log rebuilds the session |
| AtomicCommands.SectionCompletesRun | apps/api/src/realtime/realtime.gateway.ts:544-722 | while a section is in progress, finishing it alone gives that same played game and its step's answer |
| RequestOrder.ExactlyOnceInOrder | apps/api/src/realtime/realtime.gateway.ts:544-722 | over every interleaving of deliveries, sections, timers and sockets a request is in the game's order of steps at most once, and the reply given and stored for its repeats publishes the result of exactly that step |
| RequestOrder.FinishedCanReply | apps/api/src/realtime/realtime.gateway.ts:701-722 | a finished section's delivery is always the one to reply, and its reply is a published one |
| GameLock.LockStore.Acquire | apps/api/src/realtime/game-command-lock.service.ts:18-53 | whatever others do meanwhile: ends, holds its fresh token on success, gives up only after the waiting time, and tries at most ceil(wait / retry) + 1 times |
| GameLock.LockStore.Release | apps/api/src/realtime/game-command-lock.service.ts:55-64 | frees the lock exactly when the caller's token holds it |
| GameLock.RoundsIsCeiling | apps/api/src/realtime/game-command-lock.service.ts:25-50 | the bound counts exactly the retries that fit before the waiting time |
| RequestIdempotency.ExactlyOnce | apps/api/src/realtime/realtime.gateway.ts:250-297 | in every interleaving of deliveries a request is executed and completed at most once, by one delivery, and an answered repeat got that delivery's reply |
| RequestIdempotency.ReplayIsOriginalIff | apps/api/src/realtime/realtime.gateway.ts:810-832 | storing and replaying gives the original reply, whatever type the repeat claims, exactly when its reason is a published one or the fallback |
| RequestIdempotency.RepeatIsTold | apps/api/src/realtime/realtime.gateway.ts:250-297 | in every interleaving a repeat gets the original's reply if the original has stored it, and otherwise is told that it is processing |
| RequestIdempotency.MoveKeepsInv | apps/api/src/realtime/realtime.gateway.ts:566-577 | every step, busy-lock rejections included, keeps records, owners and counters consistent |
| RequestIdempotency.RequestIdempotencyService.Begin | apps/api/src/realtime/request-idempotency.service.ts:29-66 | SET NX and then GET are the first two moves of a delivery: the first acquires, a repeat learns what became of it |
| Gateway.RealtimeGateway.HandleRequest | apps/api/src/realtime/realtime.gateway.ts:250-297 | handling one request makes the registry moves of one delivery; only an executed one changes the world, by one locked step |
| Gateway.RealtimeGateway.ExecuteCommandWithCompletion | apps/api/src/realtime/realtime.gateway.ts:701-722 | one step of the game, its deadlines, exactly its messages sent and its socket moved, and the reply to it stored for repeats; after an accepted start every dealt player's role message is among those sent |
| PhaseTimers.PhaseTimerService.ClearGame | apps/api/src/realtime/phase-timer.service.ts:28-40 | removes exactly the game's entries |
| PhaseTimers.PhaseTimerService.Schedule | apps/api/src/realtime/phase-timer.service.ts:13-26 | leaves the new entry as the game's only one |
| PhaseTimers.PhaseTimerService.ListDue | apps/api/src/realtime/phase-timer.service.ts:42-65 | the earliest due entries, earliest first, without repeats, all of them when they fit the limit |
| Gateway.RealtimeGateway.AdvancePhaseFromTimer | apps/api/src/realtime/realtime.gateway.ts:454-499 | handling one due entry alone drops it, gives up or fires it exactly as the steps of the world of pollers do |
| Gateway.RealtimeGateway.HandleDisconnectedUser | apps/api/src/realtime/realtime.gateway.ts:590-663 | only the socket that speaks for its user, and only in a room, marks the player and tells the room |
| Gateway.RealtimeGateway.MarkReconnectedPlayerWithLock | apps/api/src/realtime/realtime.gateway.ts:665-699 | a returning socket marks the player connected under the lock, and nothing else |
| Gateway.EffectApplier.ApplyCommandEffects | apps/api/src/realtime/realtime.gateway.ts:307-404 | the loop over effects joins and leaves the socket room and keeps the record of it, sends the rest in order, leaves the deadlines of its broadcasts and caches each chat message once |
| Gateway.SentExactly | apps/api/src/realtime/realtime.gateway.ts:345-357 | every broadcast and every private message of a command is sent, as often as it occurs, and nothing else |
| Gateway.SentLast | apps/api/src/realtime/realtime.gateway.ts:345-357 | and in its place |
| Gateway.BroadcastsExactly | apps/api/src/realtime/realtime.gateway.ts:359-371 | the timer sends exactly the broadcasts, in order |
| Gateway.LastMoveDecides | apps/api/src/realtime/realtime.gateway.ts:315-343 | the last joining or leaving decides whether the socket is in the room and what its record says; no other socket or room is touched |
| Gateway.CommandIsDelivered | apps/api/src/realtime/realtime.gateway.ts:701-735 | an accepted start sends every dealt player the own role, an investigation its answer; joining and leaving, and nothing else, move the socket |
| Gateway.EffectApplier.ApplySystemCommandEffects | apps/api/src/realtime/realtime.gateway.ts:359-371 | the timer's loop does the same with the broadcasts only |
| ClockSections.IdleGamesAreClocked | apps/api/src/realtime/realtime.gateway.ts:373-404 | with every save of the session, every read, removal and addition on the deadline set and every poller's unlocked step interleaved, an unfinished game no section is working on has exactly one entry, at its deadline |
| ClockSections.WorkEndsOnTime | apps/api/src/realtime/phase-timer.service.ts:13-40 | whatever pollers did meanwhile, finishing a section in progress leaves its game with exactly one entry, at its deadline |
| ClockSections.DroppedClock | apps/api/src/realtime/realtime.gateway.ts:456-465 | dropping an entry that is no deadline disturbs neither an idle game nor one at work |
| GameClock.NoGameLosesItsClock | apps/api/src/realtime/realtime.gateway.ts:454-499 | with each locked section as one step, in every interleaving of pollers and commands an unfinished game has exactly one entry, at its session's deadline |
| GameClock.FiredKeepsInv | apps/api/src/realtime/realtime.gateway.ts:479-486 | completing the processed entry never removes the fresh one, which is later |
| GameClock.LeftoverIsDropped | apps/api/src/realtime/realtime.gateway.ts:456-465 | a finished game's leftover entry is dropped without touching any session |
| GameClock.SpentDeadlineNeverReturns | apps/api/src/realtime/realtime.gateway.ts:456-465 | a passed deadline that is no longer the session's never becomes it again, so every later check drops it |
| GameClock.FiringSpendsItsDeadline | apps/api/src/realtime/realtime.gateway.ts:479-486 | after a firing its deadline is no longer current |
| GameClock.SpentIff | apps/api/src/realtime/realtime.gateway.ts:454-499 | a due current deadline stops being current in exactly the ticks that advance its game: a firing of any of its entries, or its host's command |
| GameClock.StillCurrentIff | apps/api/src/realtime/realtime.gateway.ts:454-499 | over every run a due deadline is still current if and only if nobody has advanced the game since |
| GameClock.FiringIsItsOwnAdvanceIff | apps/api/src/realtime/realtime.gateway.ts:454-486 | a poller's firing is its deadline's own advance if and only if nobody advanced the game between its comparison and its firing; otherwise it advances the game once more, unless it is over |
| GameClock.DeadlineIsSpentOnce | apps/api/src/realtime/realtime.gateway.ts:454-486 | of all the firings of one deadline at most one is its own advance |
| GameClock.TwoPollersAdvanceTwice | apps/api/src/realtime/realtime.gateway.ts:454-486 | in every reached world with a due game two pollers can list, compare and fire the same entry and advance the game twice, a discussion past a voting whose deadline has not come |
| ChatCache.CacheIsRecentHistory | apps/api/src/realtime/chat-message-cache.service.ts:11-53 | after every run the cached list is the last messages of the channel's history in order, and a reader of k gets the last min(k, limit) |
| ChatCache.AcceptedChatIsNewOnce | apps/api/src/realtime/realtime.gateway.ts:737-762 | an accepted message is cached exactly once whatever its fan-out, because its sender is among the recipients |
| ChatCache.ChatReachesExactly | apps/api/src/game-commands/game-command.service.ts:1638-1646 | mafia chat reaches exactly the living mafia, ghost chat exactly the dead, the other channels the room |
| ChatCache.ChatReachesOnce | apps/api/src/game-commands/game-command.service.ts:1638-1646 | nobody is sent an accepted message twice |
| GameTimeline.ChatVisibility | apps/api/src/game-commands/game-command.service.ts:1222-1570 | the visibility recorded with a message is its audience |
| ChatCache.ResolveLimit | apps/api/src/realtime/chat-message-cache.service.ts:89-98 | a positive limit is kept, anything else means fifty |
| ChatCache.ChatMessageCache.Append | apps/api/src/realtime/chat-message-cache.service.ts:11-21 | pushing and trimming keeps the newest messages |
| ChatCache.ChatMessageCache.GetRecent | apps/api/src/realtime/chat-message-cache.service.ts:23-53 | returns the newest of the asked number, dropping none of the channel's messages |
| AvailableActions.OfferedIffAccepted | apps/api/src/realtime/available-actions.service.ts:8-86 | a vote, night action or game chat is offered to a connected player of an unfinished game if and only if the server would accept it, while unused; nothing is offered otherwise, and a used one is refused |
| AvailableActions.BuildForPlayer | apps/api/src/realtime/available-actions.service.ts:8-86 | the guarded pushes give the described list |
| ClientView.PageAgreesWithServer | apps/web/app/play/play-client.tsx:271-395 | after every run, losses, returns and overtaken losses of the socket included, a listening page shows the server's phase, turn and living players and derives the actions the server offers |
| ClientView.ObserveRunInStep | apps/web/app/play/play-client.tsx:1352-1447 | the fold keeps statuses, the own role and the own connection in step with the session |
| ClientView.ReturnStep | apps/api/src/realtime/reconnect-state.service.ts:25-99 | the reconnect snapshot, read and delivered at once, brings a page that missed messages back in step |
| ClientView.LateSnapshotAgreesIff | apps/api/src/realtime/reconnect-state.service.ts:25-99 | a snapshot delivered late agrees with the session exactly when phase, turn, the living and the user's own connection are still the same |
| RoleSecrecy.RolesKnownIff | apps/web/app/play/play-client.tsx:285-400 | in every run, from what the game sends it, a page knows another user's role if and only if it is the dealt one and the page was sent a reconnect snapshot of the session or heard the answer to its own user's accepted investigation of that player |
| RoleSecrecy.RoleIsToldIff | apps/api/src/game-commands/game-command.service.ts:1176-1193 | after the start a message carries a role exactly when it answers an accepted police choice: to the police alone, about the chosen player |
| RoleSecrecy.ToldInvestigations | apps/web/app/play/play-client.tsx:395-408 | what a page was told by investigations is, in every run, the true role of exactly the players its user investigated while it could hear |
| PlayedRuns.InvestigationIsPlayed | apps/api/src/game-commands/game-command.service.ts:1176-1193 | in a played first night, without any snapshot, the police learns the role of whomever it chooses |
| GameTimeline.TimelineListsRoles | apps/api/src/game-events/game-events.controller.ts:29-60 | the served timeline of every played game lists a role for a user exactly when the game has started and it is the dealt one |
| GameTimeline.TimelineIsPublicIff | apps/api/src/game-events/game-events.controller.ts:29-60 | the served timeline holds only events that are public during the game if and only if the game has not started |
| ClientView.AgreementGivesActions | apps/web/app/play/play-client.tsx:1522-1601 | a page in step derives the server's offers, targets compared as sets |
| ClientView.DeriveAvailableActions | apps/web/app/play/play-client.tsx:1522-1601 | the page's guarded pushes give the described list |
| ClientView.DedupeAvailableActions | apps/web/app/play/play-client.tsx:1603-1616 | each action once, none lost, and no change to a list without repeats |
| ConnectionStates.LatestSocketSpeaks | apps/api/src/realtime/connection-state.service.ts:20-145 | over every run a user's record names the socket of the latest connection and what that socket last said, and the socket's entry is the same record |
| ConnectionStates.OlderSocketIsIgnored | apps/api/src/realtime/connection-state.service.ts:40-121 | disconnects and room changes of older sockets change nothing |
| ConnectionRaces.StatusesAgreeIff | apps/api/src/realtime/realtime.gateway.ts:127-190 | over every run of openings in their three steps, closings, leaving, joining elsewhere, marks and busy locks, the player's status is the record's exactly when the handler that marked last wrote the status written last; with all handlers done and marked in order, exactly when the last write is of a handler that marks this session or repeats the status marked last |
| ConnectionRaces.StartAgreesIff | apps/api/src/game-session/game-session.service.ts:484-496 | every game starts in a settled state of these runs, agreeing exactly for the users whose record is connected |
| ConnectionRaces.LeavingThenClosing | apps/api/src/realtime/realtime.gateway.ts:590-612 | a seated, connected user who leaves a running game's room and closes the socket is disconnected in the record and connected in the session, with all handlers done in order |
| ConnectionRaces.OutOfRoomIsFrozen | apps/api/src/realtime/realtime.gateway.ts:608-610 | with the record out of the game's room and no handler under way, no further run changes the player's status |
| ConnectionRaces.OverlappingOpeningsLoseTheRoom | apps/api/src/realtime/realtime.gateway.ts:136-190 | of two overlapping openings the second finds no room, takes the record out of it, and its closing marks nobody |
| ConnectionRaces.OvertakenMark | apps/api/src/realtime/realtime.gateway.ts:594-640 | from every settled state of a user in the room, an old socket's closing overtaken by a new socket's opening leaves a connected user's player disconnected |
| ConnectionStates.ConnectionStateService.MarkSocketConnected | apps/api/src/realtime/connection-state.service.ts:20-38 | the two keyed writes are the described step, and the record saved is returned |
| ConnectionStates.ConnectionStateService.MarkSocketDisconnected | apps/api/src/realtime/connection-state.service.ts:40-62 | likewise; an older socket is returned the record that speaks |
| ConnectionStates.ConnectionStateService.SetSocketRoom | apps/api/src/realtime/connection-state.service.ts:64-88 | likewise |
| ConnectionStates.ConnectionStateService.ClearSocketRoom | apps/api/src/realtime/connection-state.service.ts:90-121 | likewise |

## Left out

- Socket.IO, the Redis adapter, Nest modules, controllers, logging and the REST API; a send is an effect in a list.
- Redis and PostgreSQL beyond SET NX, GET, SET, compare-and-delete, the sorted set, list push and trim and the unique insert.
- Expiry of sessions, rooms, connection records, request records and chat lists; only the lock key expires.
- Paths taken when a store fails, which run without lock or registry, and failed event inserts after a save.
- Authentication, user accounts, the checks of payload shapes, trimming of ids, and the mapping of errors to reject reasons; errors are an enumeration.
- Nicknames, timestamps that nothing reads, the displayed tally, reason texts, and `protectedByDoctor` in messages.
- React rendering, the demo lab, the timeline page and local storage.
- The page's deadline and other players' connection state, which are not kept in step with the server.
- The lengths of the configured phases: any length of at least a millisecond.
- Local wakeups and the single-flight flag of one instance's poller; pollers are unrestricted.
- Property names inherited by JavaScript objects, which could be taken for used request ids.
- RecordPhase: the two copies of the phase step share this one tail for events and effects, where the source writes it twice with the same content.
- AvailableActions.OfferedIffAccepted: LOBBY chat is not among the offered actions and is not compared.
- LockedSections.NoLostUpdates: assumes that no section in progress outlives its lock, as `OutlivedLockLosesVote` shows it must.
- ClientView.ReturnStep: takes the snapshot's reading and its delivery, and the page's own fetch of the room, as one step; `LateSnapshotAgreesIff` says when a late delivery still agrees.
- Gateway.RealtimeGateway.AdvancePhaseFromTimer: runs alone, as do the gateway's other methods; other instances' steps in between are the subject of `GameClock` and `LockedSections`.
- GameClock.NoGameLosesItsClock: takes each locked section as one step; `ClockSections.IdleGamesAreClocked` does not.
- The timeline endpoint's caller: it has no authentication, so there is nothing to model of who asks.
- ClockSections.IdleGamesAreClocked: takes one section at a time per game as given; `LockedSections` derives it from the lock.
- RoleSecrecy.RolesKnownIff: a user has one page and one socket at a time; several tabs of one user share the user's private messages in the source.
- ClientView.PageAgreesWithServer: a reconnect whose mark of the session finds the lock busy, and the page of a user without a game room, are not among its inputs.
