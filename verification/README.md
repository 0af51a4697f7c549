# Bingo lobby protocol, verified

This project models the server side of a multiplayer bingo application: the durable lobby protocol, the in-process
realtime authority in front of it, and the algorithms both rest on. It proves what they promise over all inputs and all runs.

## What is modelled

**The durable protocol.** A lobby is a record of tables (`Lobby.Db`): participants, sessions, presence generations, the round
with its draw, cards, calls, marks and winners, the stored command results and the event log. Every Serializable transaction
fences the lobby row first, so one transaction is one step (`Transactions.Next`): ten commands, the automatic-call and the
settlement lease, connecting, releasing, a grace period running out, joining, returning and lazy expiry. `LobbyInv.Inv` is the
invariant of the tables. The executor and the presence store are also modelled as classes that change their rows one by one
(`PeopleStore`, `RoundStore`, `LobbyStore`) and are proved equal to those steps. What each command does and who may issue it is
stated from the tables alone in `Commands` and `MarkCommands`, what each presence transaction does in `Meaning`, `Blocking` and
`Absences`, and what a snapshot shows in `SnapshotContents` and `SnapshotRows`; the transition functions are not named there. What
holds over runs is in `Accounting`, `Roster`, `Transactions`, `RoundRuns`, `Leases`, `Replays` and `EventLog`; the cross-field rules of
snapshots are in `Snapshots`, `SnapshotRules` and `SchemaChecks`; one whole run is followed through `Gathering`, `SharedColumn`,
`EverybodyWins` and `Squeezing`.

**The realtime authority.** `Synchronization` is the snapshot handshake of one socket, `Deliveries` the ordered and
de-duplicating delivery queues, `Scheduler` the timers, queue and executions of leases, `Release` the presence of a connection.
Each stretch of code between two awaits is one step, and every interleaving of steps is a run. The classes in
`Synchronization`, `DeliveryRuns`, `SchedulerRuns` and `Release` do these steps in place. `SchedulerProgress` proves that the
scheduler does its work: what is found is armed, what fires is executed, and no lobby is forgotten.

**The algorithms.** Pattern progress and attribution (`Patterns`, `Catalog`), the round machine (`RoundMachine`), rejection
sampling, the shuffle and dealing (`Randomness`, `Dealing`), the canonical JSON text (`CanonicalJson`), error classification and
retry (`Retry`), the two rate limiters (`RateLimiter`) and the connection capacity (`Capacity`).

## Conventions and assumptions

- Times are milliseconds. The clock does not go backwards, and one game-server process lives throughout.
- Ids come from a supply and are new. SHA-256 is injective: a digest is the tuple that is hashed.
- Messages have the shapes their schemas give them; the cross-field rules of the schemas are modelled and proved.
- Sets and maps stand for tables with their primary keys. Where a query has no order, any order is allowed.
- `Fault`, `Failed`, `None` and `Threw` are exceptions; the transaction rolls back. `Transactions.TransactionOk` proves that
  none is reachable, including those of replays and continuations.
- `Lobby.Entry` and the sockets of `Connections.World` are history: no transaction of the executor reads them.

Four facts of the code shape the statements. The first start, with no round yet, does not look at blocking presence. Lazy expiry
commits also when the command that ran it is refused. A continuation that carries winners, and the host's absence overwriting
another pause, are steps of the row that the pure machine does not have (`RoundRuns.TransactionRefines`). Creating the first round with
`create-round` leaves the pending setup in place.

One promise does not hold in all states. The snapshot schema requires every winner to be among the visible participants, of whom a
lobby without a running round shows 25. `SnapshotRules.SnapshotMeetsRules` proves that a snapshot meets all other cross-field rules,
and this one if and only if the viewer is not squeezed: waiting without a card for a new round while the ended one has 25 cards
whose holders, the host aside, have all won. `Squeezing.ASnapshotFails` proves that the server gets there. With the standard
catalogue and any intervals there is a run from a new lobby: 25 join and connect, are dealt different cards that share the middle
column, mark its four balls, and all win; after the end one of them departs and another joins, whose snapshot lacks a winner.

## Model

| member | source | states |
|---|---|---|
| `Patterns.CompleteIffSomeMaskCovered` | packages/patterns/src/matcher.ts:33-66 | Progress is complete exactly when every required cell of some mask is called and marked |
| `Patterns.RemainingIsMinimum` | packages/patterns/src/matcher.ts:40-49 | The remaining count is reached by a mask and undercut by none |
| `Patterns.SatisfiedCountsDone` | packages/patterns/src/matcher.ts:59-65 | The satisfied count is the number of the selected mask's cells that are called and marked, the required count that of its cells to mark |
| `Patterns.ProgressIsMonotone` | packages/patterns/src/matcher.ts:33-66 | More calls or marks never raise the remaining count and never undo a completion |
| `Patterns.NearWinIsSound` | packages/patterns/src/matcher.ts:51-64 | A reported near-win cell is called, unmarked and not free, and marking it completes the pattern |
| `Patterns.SelectedIsFirst` | packages/patterns/src/matcher.ts:40-49 | The selected mask is the first of those with the fewest missing cells |
| `Patterns.NearWinMeaning` | packages/patterns/src/matcher.ts:51-64 | A cell is reported exactly when it is the only one the selected mask lacks, and it is called and unmarked |
| `Patterns.AttributableMeaning` | packages/patterns/src/matcher.ts:68-107 | Attribution holds exactly when no mask was complete before and a mask complete now contains the latest cell |
| `Catalog.CreateLineIndexes` | packages/patterns/src/catalog.ts:168-183 | The loops build exactly the five rows, five columns and two diagonals |
| `Catalog.CreateTwoLineMasks` | packages/patterns/src/catalog.ts:185-193 | The nested loops build 66 masks, one for each pair of different lines and no other |
| `Catalog.OneLineMeaning` | packages/patterns/src/catalog.ts:168-184 | One Line is complete exactly when some line is |
| `Catalog.TwoLinesMeaning` | packages/patterns/src/catalog.ts:185-193 | Two Lines is complete exactly when two different lines are |
| `Catalog.PairMasksDiffer` | packages/patterns/src/catalog.ts:79-85 | Different pairs of lines have different masks, as the schema requires |
| `Catalog.OfferedContinuationIsAccepted` | packages/database/src/round-command-executor.ts:557-565 | Of the standard patterns, the one offered in a result is exactly the one the machine accepts |
| `Games.RowDecides` | packages/database/src/round-command-executor.ts:489-544 | The row of a good round converts, and no transition at or after the clock throws |
| `Games.PublishesOk` | packages/database/src/round-command-executor.ts:567-653 | A good round can be published and its public form meets the cross-field rules |
| `Games.PublishesState` | packages/database/src/round-command-executor.ts:567-653 | What is published shows the machine's state of the row, with all standing winners on the latest call |
| `Games.StartStep` | packages/database/src/round-command-executor.ts:1078-1106 | Starting the row is the machine's start and keeps the invariant |
| `Games.PauseStep` | packages/database/src/round-command-executor.ts:1108-1139 | Pausing the row is the machine's pause and keeps the invariant |
| `Games.PromoteStep` | packages/database/src/lobby-state-repository.ts:2983-3000 | The host's absence overwrites a pause, which the machine declines, and keeps the invariant |
| `Games.ResumeStep` | packages/database/src/round-command-executor.ts:1108-1139 | Resuming the row is the machine's resume and keeps the invariant |
| `Games.SettleStep` | packages/database/src/round-command-executor.ts:1834-1850 | Settling the row is the machine's settlement and keeps the invariant |
| `Games.EndStep` | packages/database/src/round-command-executor.ts:1384-1405 | Ending the row is the machine's end and keeps the invariant |
| `Games.ContinueRowStep` | packages/database/src/round-command-executor.ts:1348-1373 | A continuation that carries nobody is the machine's continuation |
| `Games.ContinueStep` | packages/database/src/round-command-executor.ts:1341-1373 | Dropping winners and continuing keeps the invariant of the round |
| `Games.CallStep` | packages/database/src/round-command-executor.ts:741-792 | A call never throws, is refused exactly after 75 balls, and keeps the invariant |
| `Marks.AttributionMeaning` | packages/database/src/round-command-executor.ts:1489-1498 | A mark wins exactly when it is new, takes the card from incomplete to complete, and a covered mask contains the latest call's cell |
| `Marks.CompletionPersists` | packages/database/src/round-command-executor.ts:1407-1580 | A completed pattern stays completed as calls and marks grow |
| `Marks.AttributionMatchesTrigger` | packages/database/src/round-command-executor.ts:1551-1569 | Inside a window a first completion is on the triggering call, and never by a standing winner |
| `Marks.OpenStep` | packages/database/src/round-command-executor.ts:1499-1538 | Opening the window is the machine's step |
| `Marks.MarkCommits` | packages/database/src/round-command-executor.ts:1407-1580 | An allowed mark always commits, with exactly this mark, winner, row and receipt |
| `Marks.MarkStep` | packages/database/src/round-command-executor.ts:1407-1580 | A mark commits exactly when it is allowed and keeps the invariant of the round |
| `Marks.NearWinIsReal` | packages/database/src/round-command-executor.ts:1468-1486 | The ball a near-win event asks for is called and unmarked on the card, and marking it completes the pattern |
| `People.ExpiryConfluent` | packages/database/src/participant-session-expiry.ts:3-66 | Expiring at t1 and then at t2 leaves the tables and total count of expiring once at t2 |
| `People.DepartsConfluent` | packages/database/src/participant-session-expiry.ts:29-64 | The same participants depart, at the same instants, in two expiries as in one |
| `People.ExpiryDeparts` | packages/database/src/participant-session-expiry.ts:29-64 | A participant departs exactly with something due and nothing open left, at the largest due deadline, and for good |
| `Presence.CurrentIsNewest` | packages/database/src/lobby-state-repository.ts:2584-2600 | The open generation exists, is unique and is the highest |
| `Presence.ExpireKeeps` | packages/database/src/participant-session-expiry.ts:3-66 | Expiry keeps every participant's sessions and generations consistent |
| `Connections.OpKeepsTables` | packages/database/src/lobby-state-repository.ts:2528-2970 | Every presence transaction keeps every participant's sessions and generations consistent |
| `Accounting.ReleaseMeaning` | packages/database/src/lobby-state-repository.ts:2747-2830 | A release starts grace exactly when it takes the last socket of the current generation |
| `Accounting.ReleaseLease` | packages/database/src/lobby-state-repository.ts:2747-2830 | The grace period that starts has a lease that holds, and no other release leaves one |
| `Accounting.EveryOpAccounted` | packages/database/src/lobby-state-repository.ts:2528-2970 | Each transaction keeps the connection count equal to the registered, unreleased sockets |
| `Accounting.EveryRunAccounted` | packages/database/src/lobby-state-repository.ts:2528-2970 | In every run the count is the number of sockets, generation and status only move forward, and departures are permanent |
| `Accounting.StaleForever` | packages/database/src/lobby-state-repository.ts:2916-2946 | In every run a grace lease that held once and is stale now stays stale, and executing it does nothing |
| `Accounting.ExecutedLeaseIsPast` | packages/database/src/lobby-state-repository.ts:2916-2968 | A lease that expired its grace period can never hold again |
| `Meaning.ConnectMeaning` | packages/database/src/lobby-state-repository.ts:2528-2655 | A connected socket has the participant's only open session, and is one more on the generation or opens the next, announced one |
| `Meaning.LastReleaseMeaning` | packages/database/src/lobby-state-repository.ts:2762-2812 | When the last socket goes the active session may be resumed until its deadline; every other session is as expiry leaves it |
| `Meaning.ReturnMeaning` | packages/database/src/lobby-state-repository.ts:2353-2490 | A returning session is its participant's only open one afterwards exactly when it may return; else nothing happens beyond expiry |
| `Meaning.SessionExpires` | packages/database/src/participant-session-expiry.ts:3-31 | Expiry ends exactly the disconnected sessions whose deadline has passed |
| `Meaning.ConnectsIffOpen` | packages/database/src/lobby-state-repository.ts:2528-2655 | A new socket is registered exactly when, after expiry, the session is active or disconnected, belongs to the participant, and the participant is there |
| `Meaning.ReconnectsInTime` | packages/database/src/lobby-state-repository.ts:2543-2583 | A session that is active, or disconnected with its deadline ahead, connects and is active then; one whose deadline has passed does not |
| `Meaning.JoinMeaning` | packages/database/src/lobby-state-repository.ts:1380-1480 | Somebody new comes in exactly when nobody has the name and there is room after expiry, and is absent until the first connection |
| `Absences.ConnectAnnounces` | packages/database/src/lobby-state-repository.ts:2619-2655 | A connection is announced exactly when it opens a new generation |
| `Absences.ReleaseAnnounces` | packages/database/src/lobby-state-repository.ts:2747-2830 | A release is announced exactly when it takes the last socket and grace starts |
| `Absences.GraceEnds` | packages/database/src/lobby-state-repository.ts:2896-3060 | A grace period that ends unvisited makes the participant absent, and pauses the round exactly when it needs the participant, with the stated reason and events |
| `Absences.OthersAreQuiet` | packages/database/src/lobby-state-repository.ts:1380-1480 | Arrivals play if there is no round and wait otherwise; arrivals, returns, further sessions and expiry announce nothing |
| `Blocking.BlockingMeaning` | packages/database/src/round-command-executor.ts:718-739 | Whoever is connected blocks nothing, an absence without override blocks, and a grace period blocks from its end on |
| `Blocking.OverrideUnblocks` | packages/database/src/round-command-executor.ts:807-851 | An overridden absence blocked before and blocks at no later time |
| `Blocking.LobbyBlocksAlike` | packages/database/src/lobby-state-repository.ts:2896-2968 | Whether a due grace lease has run yet never changes if the lobby is blocked |
| `Roster.RosterStaysSound` | packages/database/src/lobby-state-repository.ts:1380-1412 | In every run names stay distinct and at most the maximum number of participants is present |
| `Release.ReleasedOnce` | apps/game-server/src/socket-server.ts:1244-1290 | However registration and disconnection interleave, the generation is given back exactly once |
| `Release.ConnectionPresence.RegistrationSettled` | apps/game-server/src/socket-server.ts:1244-1246 | The step in which the registration settles |
| `Release.ConnectionPresence.RequestRelease` | apps/game-server/src/socket-server.ts:1247-1248 | The step in which the socket disconnects |
| `Release.ConnectionPresence.ContinueRelease` | apps/game-server/src/socket-server.ts:1249-1253 | The step that unregisters, once the registration has settled |
| `LobbyInv.NewLobbyOk` | packages/database/src/lobby-state-repository.ts:1077-1296 | A new lobby satisfies the invariant |
| `LobbySteps.CalledQuietly` | packages/database/src/round-command-executor.ts:741-792 | A call appends the next draw position, is announced with its number, and keeps the lobby's invariant |
| `LobbySteps.ConfigureOk` | packages/database/src/round-command-executor.ts:926-978 | Configuring never throws and keeps the lobby's invariant |
| `LobbyWorld.PresenceTransactionOk` | packages/database/src/lobby-state-repository.ts:2528-3060 | Presence transactions never throw and keep the lobby's invariant |
| `LobbyWorld.AbsencePauses` | packages/database/src/lobby-state-repository.ts:2969-3060 | The pause for an absence never throws and keeps the lobby's invariant |
| `LobbyWorld.OverrideOk` | packages/database/src/round-command-executor.ts:807-851 | Overriding an absence never throws and keeps the lobby's invariant |
| `LobbyWorld.OverriddenIsAbsent` | packages/database/src/round-command-executor.ts:807-851 | An overridden generation is the current one, absent since a known time |
| `LobbyWorld.CreateOk` | packages/database/src/round-command-executor.ts:853-924 | Creating a round never throws, detaches everything of the old one, and keeps the lobby's invariant |
| `LobbyWorld.FirstStartOk` | packages/database/src/round-command-executor.ts:980-1065 | The first start never throws and keeps the lobby's invariant |
| `LobbyWorld.FirstRowOk` | packages/database/src/round-command-executor.ts:1000-1036 | The pending setup starts as the machine starts a fresh waiting round |
| `LobbyMarks.NoEarlierWin` | packages/database/src/round-command-executor.ts:1489-1498 | Nobody wins a pattern twice in a round |
| `LobbyMarks.EntryWinsIffAttributed` | packages/database/src/round-command-executor.ts:1489-1498 | A mark counts as winning in the history exactly when the code attributes it |
| `LobbyMarks.MarkOk` | packages/database/src/round-command-executor.ts:1407-1580 | A mark is acknowledged exactly when allowed, never throws, and keeps the lobby's invariant with its stored result |
| `MarkCommands.MarkMeaning` | packages/database/src/round-command-executor.ts:1407-1580 | A mark is taken exactly when the ball was called, is on the card and the round is open for marks; the mark, the win, the window, the event and the reply are those stated from the tables alone |
| `LobbyContinue.OneMatchingContext` | packages/database/src/round-command-executor.ts:1277-1297 | Every settled winner has exactly one matching stored win |
| `LobbyContinue.WinnerCarries` | packages/database/src/round-command-executor.ts:1277-1340 | No check on a winner's history throws; a winner is carried exactly when the winning mark also first completed the new pattern through the triggering call |
| `LobbyContinue.CarriedCompletes` | packages/database/src/round-command-executor.ts:1325-1339 | A carried winner's card completes the new pattern now, through a mask with the triggering call's cell |
| `LobbyContinue.ContinueCommits` | packages/database/src/round-command-executor.ts:1146-1373 | An accepted continuation never throws and keeps exactly the carried winners |
| `LobbyContinue.ContinueOk` | packages/database/src/round-command-executor.ts:1146-1382 | Continuing never throws and keeps the lobby's invariant |
| `Transactions.ReplayOk` | packages/database/src/round-command-executor.ts:1956-2033 | A repeated command returns what is stored, a reused id is refused, and no replay check throws |
| `Transactions.TransactionOk` | packages/database/src/round-command-executor.ts:1906-2175 | No transaction throws and each keeps the lobby's invariant |
| `Transactions.EveryRunKeepsInv` | packages/database/src/round-command-executor.ts:1906-2175 | Every state of every run satisfies the invariant and no transaction throws there |
| `Commands.WhoMayCommand` | packages/database/src/round-command-executor.ts:1935-2038 | Without an active session nothing is done, and a player's new command other than a mark is forbidden; every table stays as it was |
| `Commands.HeldIsBlocked` | packages/database/src/round-command-executor.ts:718-739 | Start, resume, call and continue are blocked exactly while somebody the round needs is absent without override or out of grace |
| `Commands.CreateMeaning` | packages/database/src/round-command-executor.ts:853-924 | Where no round goes on and at most 25 are present, one is created that waits for One Line with cards for all of them, and the old one is deleted; otherwise only what was due departs |
| `Commands.ConfigureMeaning` | packages/database/src/round-command-executor.ts:926-978 | A known pattern and call mode are kept for the first round, or taken by a waiting one, and published; anything else is refused |
| `Commands.FirstStartMeaning` | packages/database/src/round-command-executor.ts:980-1065 | Without a round the kept setup starts at once, with the cards and the draw of the deal, exactly when at most 25 play, whoever is missing |
| `Commands.StartMeaning` | packages/database/src/round-command-executor.ts:1069-1106 | A waiting round becomes active now, with its first automatic deadline, and is announced exactly when nobody is missing; otherwise the command is refused |
| `Commands.PauseMeaning` | packages/database/src/round-command-executor.ts:1108-1139 | An active round is paused now by the host's command, whoever is missing; any other round refuses |
| `Commands.ResumeMeaning` | packages/database/src/round-command-executor.ts:1108-1139 | A paused round becomes active again, whatever it was paused for, exactly when nobody is missing; otherwise the command is refused |
| `Commands.EndMeaning` | packages/database/src/round-command-executor.ts:1384-1405 | A round that is active, paused or has its result ends with the winners that stand, whoever is missing; any other round refuses |
| `Commands.CallMeaning` | packages/database/src/round-command-executor.ts:741-792 | An active round gets the next ball of its draw exactly when one is left and nobody is missing; otherwise the command is refused |
| `Commands.OverrideMeaning` | packages/database/src/round-command-executor.ts:807-851 | The absence of a present player in just that generation is overridden and announced; in any other case only what was due departs |
| `Commands.ContinueMeaning` | packages/database/src/round-command-executor.ts:1146-1382 | A result goes on with the pattern that follows on exactly when nobody is missing, and keeps exactly those whose winning mark also first completed it |
| `Commands.NothingToSteer` | packages/database/src/round-command-executor.ts:1066-1078 | Without a round there is nothing to pause, resume, call, continue or end |
| `Moves.TransactionMoves` | packages/database/src/round-command-executor.ts:794-1583 | Every transaction makes exactly one of the listed moves of the round, or leaves it alone |
| `RoundRuns.TransactionRefines` | packages/domain/src/state-machine.ts:173-319 | Every transaction is the machine's own step, leaves its state, begins a round in its first state or just started, or is one of the two named exceptions with its effect |
| `RoundRuns.RunLater` | packages/database/src/round-command-executor.ts:794-1583 | In every run rounds are only replaced by later ones, and a round withdraws nothing and goes only forward |
| `RoundRuns.OneWindowPerPattern` | packages/database/src/round-command-executor.ts:1499-1538 | A round opens at most one window per pattern |
| `RoundRuns.AtMostTwoContinues` | packages/database/src/round-command-executor.ts:1146-1373 | A started round is continued at most twice, each time to the next mode |
| `RoundRuns.OneBallPerDeadline` | packages/database/src/round-command-executor.ts:1649-1733 | However often and late a lease is executed, its round and deadline yield at most one ball |
| `RoundRuns.AutomaticCallsAreSpaced` | packages/database/src/round-command-executor.ts:1649-1733 | An automatic call comes a full interval after the latest start, resume, continue and call, and is the next ball of the draw |
| `RoundRuns.ClosedWindowStands` | packages/database/src/round-command-executor.ts:1407-1414 | A closed window keeps its round exactly until it is settled, whatever else happens |
| `RoundRuns.SettledAreAchievers` | packages/database/src/round-command-executor.ts:1794-1904 | The settled winners are exactly those whose first completing mark was attributed to the triggering call before closing; that call is the latest |
| `RoundRuns.SettlementIsScheduleIndependent` | packages/database/src/round-command-executor.ts:1794-1904 | Any settlement of a closed window, however late, has the same winners |
| `RoundRuns.SettlesNow` | packages/database/src/round-command-executor.ts:1834-1850 | A window whose lease holds settles at any time from its closing on |
| `Leases.FoundLeaseHolds` | packages/database/src/round-command-executor.ts:1634-1647 | The call lease that is looked up is the one that holds, and so is the settlement lease |
| `Leases.NoRoundIsForgotten` | packages/database/src/round-command-executor.ts:1612-1647 | In every run an active automatic round with balls left has a call lease, due exactly one interval after its latest call or activation, and an open window a settlement lease |
| `Leases.FoundWindowSettles` | packages/database/src/round-command-executor.ts:1794-1904 | The settlement lease that is looked up settles once the window has closed |
| `Leases.FoundCallDraws` | packages/database/src/round-command-executor.ts:1649-1733 | The call lease that is looked up draws one ball once due and unblocked, or ends when none is left |
| `Leases.CallLeaseMeaning` | packages/database/src/round-command-executor.ts:1649-1733 | The lease of an active automatic round draws the next ball when due and nobody is missing, and ends when none is left; stale, early and blocked leases change nothing |
| `Leases.SettlementMeaning` | packages/database/src/round-command-executor.ts:1794-1904 | The lease of a closed window settles it and publishes all who won, whoever is missing; stale and early leases change nothing |
| `Replays.RunRecalls` | packages/database/src/round-command-executor.ts:869-883 | In every run a stored result stays as it is, or loses exactly what refers to its deleted round |
| `Replays.AcknowledgementIsStored` | packages/database/src/round-command-executor.ts:2094-2165 | What an acknowledgement says is what is stored |
| `Replays.ReplayIsExact` | packages/database/src/round-command-executor.ts:1956-2033 | Re-executing a committed command at any later state changes no table and gives the same scope, sequence, time and, while its round stands, private events |
| `EventLog.EventsArePermanent` | packages/database/src/round-command-executor.ts:2053-2086 | In every run events are numbered 1, 2, ... and a committed event never changes |
| `EventLog.NoDanglingReferences` | packages/database/src/round-command-executor.ts:869-883 | In every run no event refers to a round that was deleted |
| `PeopleStore.Store.FindDue` | packages/database/src/participant-session-expiry.ts:8-17 | The due sessions, each once, in ascending order of deadline |
| `PeopleStore.LastIsLargest` | packages/database/src/participant-session-expiry.ts:18-31 | Overwriting in that order keeps each participant's largest due deadline |
| `PeopleStore.Store.ExpireDueSessions` | packages/database/src/participant-session-expiry.ts:3-66 | The two loops do the lazy expiry step and count the departures |
| `PeopleStore.Store.ExpireSessions` | packages/database/src/participant-session-expiry.ts:18-31 | The first loop expires exactly the due sessions and records the last deadline of each participant |
| `PeopleStore.Store.DepartParticipants` | packages/database/src/participant-session-expiry.ts:33-64 | The second loop departs exactly the participants without an open session and their open generations |
| `PeopleStore.Store.RegisterConnection` | packages/database/src/lobby-state-repository.ts:2528-2655 | Row by row, the registration step; the generation and event returned are the step's |
| `PeopleStore.Store.UnregisterConnection` | packages/database/src/lobby-state-repository.ts:2702-2835 | Row by row, the release step |
| `PeopleStore.Store.ExpirePresenceGrace` | packages/database/src/lobby-state-repository.ts:2896-2968 | Row by row, the end of a grace period, or nothing when the lease is stale or early |
| `PeopleStore.Store.OverrideAbsence` | packages/database/src/round-command-executor.ts:807-851 | Row by row, the override after expiry |
| `PeopleStore.Store.ActivateSession` | packages/database/src/lobby-state-repository.ts:2554-2583 | The session becomes active and its open siblings depart |
| `PeopleStore.Store.JoinWithSession` | packages/database/src/lobby-state-repository.ts:1297-1480 | Row by row, joining; refused for a taken name or a full lobby |
| `PeopleStore.Store.RejoinWithSession` | packages/database/src/lobby-state-repository.ts:2353-2490 | Row by row, returning with a session |
| `RoundStore.RoundRows.CommitNextCall` | packages/database/src/round-command-executor.ts:741-792 | The call step on the rows |
| `RoundStore.RoundRows.MarkCard` | packages/database/src/round-command-executor.ts:1407-1580 | The mark step on the rows, branch by branch |
| `RoundStore.RoundRows.CheckContexts` | packages/database/src/round-command-executor.ts:1215-1271 | The loop over stored wins fails exactly when one of them does not parse |
| `RoundStore.RoundRows.DecideCarry` | packages/database/src/round-command-executor.ts:1277-1340 | The decision for one winner, with its throws |
| `RoundStore.RoundRows.ContinueRound` | packages/database/src/round-command-executor.ts:1146-1373 | The continuation step on the rows |
| `LobbyStore.Store.ExecuteForActor` | packages/database/src/round-command-executor.ts:1906-2175 | From authentication to the stored result, the command step; it never throws and keeps the invariant |
| `LobbyStore.Store.ExecuteMutation` | packages/database/src/round-command-executor.ts:794-1583 | The body of every command, in the code's order of checks |
| `LobbyStore.Store.CreateRound` | packages/database/src/round-command-executor.ts:853-924 | The round creation step on the rows |
| `LobbyStore.Store.StartFirstRound` | packages/database/src/round-command-executor.ts:980-1065 | The first start on the rows |
| `LobbyStore.Store.FindBlockingPresence` | packages/database/src/round-command-executor.ts:718-739 | Whether anybody who should be there blocks the round |
| `LobbyStore.Store.CommitResult` | packages/database/src/round-command-executor.ts:2053-2165 | Appends the event and stores the result of a command |
| `LobbyStore.Store.ReplayResult` | packages/database/src/round-command-executor.ts:1956-2033 | Answers a repeated command and never throws |
| `LobbyStore.Store.ExecuteAutomaticCall` | packages/database/src/round-command-executor.ts:1649-1733 | The automatic-call step on the rows, with its outcome |
| `LobbyStore.Store.ExecuteCoWinnerSettlement` | packages/database/src/round-command-executor.ts:1794-1904 | The settlement step on the rows |
| `LobbyStore.Store.RegisterConnection` | packages/database/src/lobby-state-repository.ts:2528-2655 | Registration with its presence event; the number returned is that of the socket and of the connected generation |
| `LobbyStore.Store.UnregisterConnection` | packages/database/src/lobby-state-repository.ts:2702-2835 | Release with its presence event; a lease is returned exactly for the last socket, holds, and ends after the grace period |
| `LobbyStore.Store.ExpirePresenceGrace` | packages/database/src/lobby-state-repository.ts:2896-3060 | The end of a grace period with its events and the pause of the round, reported exactly when the lease held and was due |
| `Snapshots.TopVisible` | packages/database/src/lobby-state-repository.ts:3133-3175 | The best-ranked participants are all visible as long as they fit |
| `Snapshots.FullHouse` | packages/contracts/src/v1/game-state.ts:369-383 | 26 visible rows are a waiting viewer and the 25 card holders of a running round |
| `Snapshots.WinnersVisible` | packages/database/src/lobby-state-repository.ts:3133-3175 | All winners are visible exactly when the viewer is not squeezed |
| `SnapshotRules.Projected` | packages/database/src/lobby-state-repository.ts:3177-3600 | The projection of a reachable state never throws |
| `SnapshotRules.CellRulesMeaning` | packages/contracts/src/v1/game-state.ts:45-94 | The schema's rules of card cells are those of a card with 25 different cells in their columns |
| `SnapshotRules.MarkCount` | packages/contracts/src/v1/game-state.ts:320-320 | A card has at most 24 marks |
| `SnapshotRules.SnapshotMeetsRules` | packages/contracts/src/v1/game-state.ts:324-639 | A viewer with an active session gets a snapshot; it meets every cross-field rule if and only if the viewer is not squeezed, and every rule but that of visible winners in any case |
| `SnapshotContents.PersonShown` | packages/database/src/lobby-state-repository.ts:3282-3356 | Everybody visible is shown with name, role and newest generation: connected exactly with a registered socket, else in grace, absent or departed since the stored instant |
| `SnapshotContents.SnapshotShows` | packages/database/src/lobby-state-repository.ts:3177-3600 | Every visible row is shown as stored, in order, with the round as published, the viewer's card and marks, all calls, the last event number, and the next deadline: of the window, else of the call, else of a grace period |
| `SnapshotContents.WhoIsVisible` | packages/database/src/lobby-state-repository.ts:3133-3175 | The viewer and the host are always visible, nobody is who neither is present nor holds a card, and everybody concerned is as long as they fit |
| `SnapshotRows.RowsAreUnique` | packages/database/src/lobby-state-repository.ts:3158-3175 | The order of the query and that of the sort are total, so the rows of a snapshot are determined by the tables |
| `SnapshotRows.RowsAreVisible` | packages/database/src/lobby-state-repository.ts:3133-3175 | These rows are admissible ones, so every statement about visible rows holds of them |
| `SnapshotRows.SnapshotIsServed` | packages/database/src/lobby-state-repository.ts:3133-3282 | Whoever has an active session gets a snapshot, in this order: the viewer, the host, those present by when they joined, those departed by when they left, latest first |
| `Gathering.Connections` | packages/database/src/lobby-state-repository.ts:2528-2655 | There is a run in which 25 participants arrive and connect |
| `SharedColumn.DealHolds` | packages/domain/src/bingo-card.ts:46-78 | 25 valid and pairwise different cards can share their middle column |
| `SharedColumn.Calls` | packages/database/src/round-command-executor.ts:741-792 | The run goes on to the start and to the calls of that column |
| `EverybodyWins.CompleteIffMarked` | packages/patterns/src/catalog.ts:168-184 | With only that column called, One Line is complete exactly when all its balls are marked |
| `EverybodyWins.EverybodyHasWon` | packages/database/src/round-command-executor.ts:1407-1580 | The run goes on until all 25 have won inside the window |
| `EverybodyWins.SomethingShips` | packages/patterns/src/catalog.ts:168-193 | The standard catalogue exists |
| `Squeezing.ASnapshotFails` | packages/contracts/src/v1/game-state.ts:618-638 | With the standard catalogue a run of the server leads from a new lobby to a snapshot that lacks a winner |
| `SchemaChecks.CheckCells` | packages/contracts/src/v1/game-state.ts:45-94 | The refinement loop reports no issue exactly when the cell rules hold |
| `SchemaChecks.CheckMarks` | packages/contracts/src/v1/game-state.ts:533-573 | The refinement loop reports no issue exactly when the marks fit the card and the calls |
| `SchemaChecks.CheckCalls` | packages/contracts/src/v1/game-state.ts:573-610 | The refinement loop reports no issue exactly when calls are numbered without a gap and distinct |
| `SchemaChecks.SnapshotsPassTheChecks` | packages/contracts/src/v1/game-state.ts:324-639 | The loops find no issue in any projected snapshot, not even in that of a squeezed viewer |
| `Synchronization.StepKeeps` | apps/game-server/src/socket-server.ts:1002-1092 | Every step of a fan-out or handshake keeps the invariant of the socket |
| `Synchronization.ReadyIsGapless` | apps/game-server/src/socket-server.ts:1185-1243 | In every interleaving a ready socket has received exactly the events after its snapshot's baseline up to the last one past it |
| `Synchronization.PendingLosesNothing` | apps/game-server/src/socket-server.ts:1185-1243 | While a handshake is pending, what was shown and what is buffered has no gap above the old baseline |
| `Synchronization.HandshakeEnds` | apps/game-server/src/socket-server.ts:1200-1243 | In every run a completed handshake leaves a ready socket at its snapshot's baseline, a failed one the old baseline or, without one, a dropped socket |
| `Synchronization.StaysConnected` | apps/game-server/src/socket-server.ts:1052-1066 | The baseline read is the last committed event, and only a drop or a first handshake that fails disconnects |
| `Synchronization.Flushed` | apps/game-server/src/socket-server.ts:1215-1219 | Filtering and sorting a buffer over a baseline sends exactly the events above it, in order |
| `Synchronization.Socket.HandleLobbyEvent` | apps/game-server/src/socket-server.ts:1052-1066 | The step that buffers, skips or emits an event |
| `Synchronization.Socket.BeginHandshake` | apps/game-server/src/socket-server.ts:1186-1193 | The step that starts buffering and remembers the old baseline |
| `Synchronization.Socket.CompleteHandshake` | apps/game-server/src/socket-server.ts:1200-1224 | The step that sends the snapshot and what was buffered above it |
| `Synchronization.Socket.AbandonHandshake` | apps/game-server/src/socket-server.ts:1225-1243 | The step after a failure: the old baseline and the buffer, or the end of the socket |
| `Deliveries.RememberLookup` | apps/game-server/src/socket-server.ts:977-1000 | Remembering changes one entry, drops at most the oldest and keeps the others |
| `Deliveries.StepKeeps` | apps/game-server/src/socket-server.ts:1002-1116 | Every step keeps queues, tables and unsettled copies consistent |
| `DeliveryRuns.SingleOrderedFanout` | apps/game-server/src/socket-server.ts:1002-1116 | In every interleaving each lobby with work has one drainer, and fan-outs of a remembered lobby strictly increase |
| `DeliveryRuns.LoadDecides` | apps/game-server/src/socket-server.ts:1013-1031 | A copy starts a fan-out exactly when above all before; else it resolves false, conflicts or is stale by the fan-out's fingerprint |
| `DeliveryRuns.LowestIsNext` | apps/game-server/src/socket-server.ts:1006-1012 | Whatever ends the work on a copy, the first pending copy with the lowest sequence is next, and without any the queue is gone |
| `DeliveryRuns.FanoutIsRemembered` | apps/game-server/src/socket-server.ts:1072-1078 | A finished fan-out is recorded as the lobby's last with its fingerprint, and its copy resolves true |
| `DeliveryRuns.EveryCopySettlesOnce` | apps/game-server/src/socket-server.ts:1002-1116 | A settled copy keeps its outcome, and an unsettled one is never lost |
| `DeliveryRuns.OneFanoutPerDelivery` | apps/game-server/src/socket-server.ts:1072-1078 | As many copies resolve true as there are fan-outs |
| `DeliveryRuns.DeliveryQueues.EnqueueDelivery` | apps/game-server/src/socket-server.ts:1093-1116 | The enqueueing step |
| `DeliveryRuns.DeliveryQueues.BeginDrain` | apps/game-server/src/socket-server.ts:1002-1012 | The step of the scheduled callback |
| `DeliveryRuns.DeliveryQueues.TakeNext` | apps/game-server/src/socket-server.ts:1009-1012 | The lowest copy is taken, or the queue deleted |
| `DeliveryRuns.DeliveryQueues.EventLoaded` | apps/game-server/src/socket-server.ts:1013-1031 | The step after an event was loaded |
| `DeliveryRuns.DeliveryQueues.FanoutDone` | apps/game-server/src/socket-server.ts:1072-1078 | The step after all sockets were handled |
| `DeliveryRuns.DeliveryQueues.FanoutFailed` | apps/game-server/src/socket-server.ts:1079-1081 | The step after a fan-out threw |
| `Scheduler.StepKeeps` | apps/game-server/src/socket-server.ts:564-702 | Every step keeps timers, queue and executions apart and consistent |
| `Scheduler.DrainKeeps` | apps/game-server/src/socket-server.ts:572-620 | Draining leaves no lease that could start |
| `SchedulerRuns.SchedulerIsSafe` | apps/game-server/src/socket-server.ts:564-848 | In every run no lobby has both timer and queue entry, table and armed timers agree, at most one execution per lobby and eight in all are in flight |
| `SchedulerRuns.FireShape` | apps/game-server/src/socket-server.ts:641-660 | The entry of a fired timer is always there and of the same lease |
| `SchedulerRuns.OvertakenFindIsIgnored` | apps/game-server/src/socket-server.ts:664-685 | In every run, what a reconciliation found is ignored once a later one of its lobby has begun |
| `SchedulerRuns.RecoveryRespectsDirty` | apps/game-server/src/socket-server.ts:686-702 | Recovery leaves alone the lobbies that changed while it was reading |
| `SchedulerRuns.StoppedStays` | apps/game-server/src/socket-server.ts:458-470 | In every run a scheduler once stopped never arms, queues or starts anything again |
| `SchedulerProgress.FoundIsKept` | apps/game-server/src/socket-server.ts:621-685 | In every run, what the latest reconciliation finds is on an armed timer or queued and nothing else of the lobby is; where it finds nothing, nothing is |
| `SchedulerProgress.RecoveredIsKept` | apps/game-server/src/socket-server.ts:686-702 | In every run, recovery arms or queues each lease of a lobby that did not change meanwhile, and nothing else of that lobby |
| `SchedulerProgress.FiredIsTakenOn` | apps/game-server/src/socket-server.ts:641-660 | In every run, the lease of a timer that fires is queued or executed, unless the queue overflows, which stops the scheduler |
| `SchedulerProgress.NothingIsLost` | apps/game-server/src/socket-server.ts:564-702 | In every run, a lease in hand stays in hand until it was executed or its lobby's lease is found anew |
| `SchedulerProgress.AsksAreHeard` | apps/game-server/src/socket-server.ts:595-605 | In every run, a lobby that changed, whose execution returned, or that was left out of a recovery is reconciled anew |
| `SchedulerProgress.NoLobbyIsForgotten` | apps/game-server/src/socket-server.ts:564-702 | In every run, a lobby with a timer, queue entry, execution or reconciliation keeps one of them until no lease is found, the call is blocked or no ball is left |
| `SchedulerProgress.LeftOutIsAsked` | apps/game-server/src/socket-server.ts:664-672 | In every run, recovery leaves out only lobbies that were asked for since it began |
| `SchedulerProgress.StopsExactly` | apps/game-server/src/socket-server.ts:641-660 | In every run, the scheduler stops exactly when it is told to or its queue overflows |
| `SchedulerRuns.LeaseScheduler.DrainQueue` | apps/game-server/src/socket-server.ts:572-620 | The drain loop is the draining step |
| `SchedulerRuns.LeaseScheduler.ScheduleLease` | apps/game-server/src/socket-server.ts:621-663 | The scheduling step |
| `SchedulerRuns.LeaseScheduler.TimerFired` | apps/game-server/src/socket-server.ts:641-660 | The step of a fired timer |
| `SchedulerRuns.LeaseScheduler.ExecutionReturned` | apps/game-server/src/socket-server.ts:595-606 | The step after the transaction of a lease returned, with the reconciliation that follows |
| `SchedulerRuns.LeaseScheduler.ExecutionEnded` | apps/game-server/src/socket-server.ts:611-617 | The step that ends an execution and drains |
| `SchedulerRuns.LeaseScheduler.BeginReconciliation` | apps/game-server/src/socket-server.ts:664-672 | The step that starts a reconciliation or marks the lobby dirty |
| `SchedulerRuns.LeaseScheduler.LeaseFound` | apps/game-server/src/socket-server.ts:672-685 | The step after the current lease was read |
| `SchedulerRuns.LeaseScheduler.EndRecovery` | apps/game-server/src/socket-server.ts:686-702 | The recovery loop schedules every lease but those of dirty lobbies, and reconciles these |
| `Randomness.RandomIndex` | packages/domain/src/random.ts:6-22 | The residue of the first accepted byte of at most 256, or an exception |
| `Randomness.SamplingIsUnbiased` | packages/domain/src/random.ts:6-22 | Every index has equally many accepted byte values, at least one |
| `Randomness.ShuffledValues` | packages/domain/src/random.ts:24-42 | The in-place loop is the shuffle by exactly the choices the tape gives, a permutation, and throws exactly when sampling does |
| `Randomness.EveryPermutationIsReached` | packages/domain/src/random.ts:24-42 | Every permutation is the shuffle by some choices |
| `Randomness.ChoicesAreUnique` | packages/domain/src/random.ts:24-42 | Of distinct values no permutation is reached by two vectors of choices |
| `Dealing.GenerateBingoCard` | packages/domain/src/bingo-card.ts:22-44 | A generated card is exactly the one the tape gives, meets the rules of card cells, and fails exactly when sampling throws |
| `Dealing.GenerateBingoCards` | packages/domain/src/bingo-card.ts:46-78 | As many pairwise different valid cards as asked for, exactly those the tape gives, or an exception exactly when sampling throws or 100 cards repeat |
| `Dealing.GenerateDrawOrder` | packages/domain/src/draw-order.ts:30-33 | The draw order holds each of the 75 balls once and is exactly the one the tape gives |
| `Dealing.EveryDrawOnce` | packages/domain/src/draw-order.ts:30-33 | Every order of the balls is drawn by exactly one vector of choices |
| `Dealing.LivelyTapesDeal` | packages/domain/src/bingo-card.ts:22-44 | On every tape with a low byte among any 256, the draw and each card are generated |
| `Dealing.DealRound` | packages/database/src/round-command-executor.ts:864-915 | What the generators give is the deal the executor relies on, exactly as the tape has it |
| `CanonicalJson.StringRoundTrip` | packages/database/src/round-command-executor.ts:310-313 | Reading an escaped string by section 7 of RFC 8259 gives the string back |
| `CanonicalJson.QuotedIsDelimited` | packages/database/src/round-command-executor.ts:310-313 | A quoted string ends where it ends |
| `CanonicalJson.PrintedApart` | packages/database/src/round-command-executor.ts:310-327 | Followed by a delimiter, two different printed values cannot be confused |
| `CanonicalJson.PrintsAlikeIffMatch` | packages/database/src/round-command-executor.ts:310-327 | Two values have the same canonical text exactly when their intents match |
| `CanonicalJson.MatchingIsEquivalence` | packages/database/src/round-command-executor.ts:659-683 | Matching of intents is an equivalence relation |
| `CanonicalJson.OrderDoesNotMatter` | packages/database/src/round-command-executor.ts:318-325 | Objects with the same members in another order print alike and match |
| `Retry.RetryReason` | packages/database/src/transaction-retry.ts:38-80 | The search finds a deadlock anywhere, else a conflict anywhere, else nothing, on every graph with or without cycles |
| `Retry.RunWithRetry` | packages/database/src/transaction-retry.ts:86-121 | The attempts, the outcome and the notices of a bounded retry |
| `Retry.DelaysAreBounded` | packages/database/src/transaction-retry.ts:108-108 | Waits at most double from 10 ms and are capped at 100 ms |
| `RateLimiter.SameDecision` | apps/game-server/src/socket-server.ts:232-254 | From related tables both limiters decide alike and stay related |
| `RateLimiter.SameAnswers` | apps/web/src/lobby-entry-http.ts:416-474 | On every request sequence in time order both limiters give the same answers |
| `RateLimiter.AnswersFollowHistory` | apps/web/src/lobby-entry-http.ts:416-474 | Both limiters allow a request exactly when the requests allowed before leave room: in the key's open window, or for one more window |
| `RateLimiter.AtMostTwiceTheLimit` | apps/game-server/src/socket-server.ts:232-254 | In any minute a key is allowed at most twice its limit |
| `RateLimiter.BoundedFixedWindowRateLimiter.Consume` | apps/game-server/src/socket-server.ts:237-254 | The lazily evicting loop is the limiter's step |
| `RateLimiter.ScanningRateLimiter.Consume` | apps/web/src/lobby-entry-http.ts:443-472 | The scanning loop is the limiter's step |
| `Capacity.AuthenticatedConnectionCapacity.Reserve` | apps/game-server/src/socket-server.ts:270-284 | A connection is reserved exactly when the transport is open and both limits leave room |
| `Capacity.AuthenticatedConnectionCapacity.Release` | apps/game-server/src/socket-server.ts:285-296 | A reservation is given back once; a second time has no effect |

## Left out

- Prisma, SQL, NOTIFY, Socket.IO, HTTP, cookies, health endpoints and logging: only their atomic effect on tables and queues is modelled.
- Lobby completion and inactivity expiry, lobby codes, themes and `last_activity_at`: no modelled step depends on them.
- Results of the entry commands (create, join, rejoin) and their replay; an id used by one of them is not modelled as taken for round commands.
- Realtime tickets, their issue and their deletion.
- `reserveParticipant`, `createActive` and `markParticipantSessionDisconnected`: other entry points outside the realtime path.
- Results of format 1 and 2 that carried private events, written by earlier versions of the program; only what the current code writes is reachable.
- The bound of 256 buffered events in `Synchronization`: a socket that exceeds it is dropped, which the model allows at any time. Private events are not modelled there.
- The timers of grace periods, which have neither leases per lobby nor reconciliation.
- Unicode normalisation of user names: names are compared as given.
- Source references, examples and texts of the pattern catalogue; the exact shapes beside the standard patterns.
- Crashes: connection counts and scheduled leases after a restart of the process.
- Patterns.NearWinIsSound: completeness of near-win feedback is not claimed, because the code looks at the first minimal mask only.
- LobbyContinue.WinnerCarries: marks made after the winning one are not in the stored context, so a card that completes the next pattern by them is not carried.
- DeliveryRuns.SingleOrderedFanout: promises nothing for a lobby that was dropped from the bounded table of last deliveries.
- Synchronization.ReadyIsGapless: takes consecutive delivery of the lobby's events as given, since a delivery that throws is not repeated by the queue.
- SchedulerProgress.NoLobbyIsForgotten: that an armed timer fires, and that a transaction or a lookup returns at last, is given by the host and the database.
- Retry.RunWithRetry: waiting itself is not modelled, only its announced length.
- CanonicalJson.PrintsAlikeIffMatch: a number is its shortest decimal text, which leaves out how that text is computed.
- Randomness.RandomIndex: a random source that returns another number of bytes than asked for is not modelled.
