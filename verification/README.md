# A model of the racing server

The repository is an on-line racing game: a C++ server with a lobby, rooms and matches, a client, and a
map editor.  This project models the parts that keep state and follow a protocol, and proves what they
promise over all inputs and all runs.

| files | what they model |
|---|---|
| `Player`, `Garage`, `Ranking`, `Race`, `Market`, `Game`, `Gameloop` | a match as the server's classes run it: races, marketplace, results, the tick of the game loop |
| `RaceTimes`, `MatchTimes`, `Purchase` | when and with which time a driver stops, which times and clocks are published, and what is bought and driven, told from the events and the broadcasts alone |
| `PhysicsWorld`, `Grid`, `Arena`, `BodyPlaces` | which bodies exist: the world's tables as an object, who starts where, and the bodies of a match over starts and runs |
| `Match`, `MatchTheorems`, `MatchLedger` | the same match as a state machine over ticks, and its properties over whole runs |
| `RoomLife`, `SecondGame` | the life of a room's game over any number of starts, and what a second game inherits from the first |
| `Lobby`, `LobbyTheorems`, `PlayerNumbers`, `MonitorLobby` | connections and rooms: the state machine, its properties over runs, how player numbers grow, and the tables as objects that take its steps |
| `Server`, `ServerTheorems`, `ChosenCar` | lobby and games together: what each request does to the games, and what holds over runs of the whole server |
| `Bytes`, `Socket`, `ServerToClient`, `Downstream`, `ClientToServer`, `ServerProtocol`, `ClientProtocol`, `Wire` | both protocols: encodings as functions, encoders and parsers as loops over sockets, and the round trips of whole streams |
| `BlockingQueue` | the queue between threads, with its condition variables and wait sets |
| `ConstantRateLoop` | the fixed-rate scheduler |
| `Yaml`, `EditorMenu`, `MapConfig`, `MapConfigLoader`, `City`, `MapRoundTrip` | the editor's export, the server's loader, the routes and spawn points of a loaded map, and that they fit together |
| `Sorting`, `Sequences`, `Wrappers`, `Constants` | what the program expects of `std::sort`, small helpers and shared codes |

Where a component updates state in place, it is modelled twice: as an object whose methods have the
source's branches and loops, and as a function on values that these methods are proved to compute.
Properties over runs are proved on the values.

Time in a match is counted in ticks of 1/60 s.  Physics is free: on every tick it may report any
checkpoint crossings, set any health and move any body.  Threads of the queue, dead connections, the sizes of socket
reads and writes, and the durations of scheduler ticks are free in the same way.

The main results, each for all inputs or all runs:

- Match: `EveryMatchEnds`, `BroadcastsSpellTheMatch`, `LedgerBalances`, `ProgressDuringTheMatch`,
  `CarsDoNotAccumulate`, `MarketNeverRunsOutOfMoney`, `PublishedTimesAreTrue`, `CarsAreWhatWasBought`,
  `RequestsAreAnswered`, `ClocksAreRight`; the objects run the same match by `Gameloop.Run`.
- Lives of rooms: `RoomLives.LifeKeepsOrder`, `TotalsGoOn`, `IndexNeverFalls`, `UpgradesNeverAddUp`; second games:
  `SecondGames.SecondGameHasOneRace`, `SecondGameKeepsUpgrades`, `StartFitsNoPurchase`.
- Server: `ServerTheorems.EveryRoomHasItsGame`, `GamesBeginExactly`, `MembersLineUp`, `StartedRoomsLiveTheirLives`,
  `PlayerStandsInForAnNpc`, `ChosenCars.TheChosenCarIsDriven`.
- Bodies: `Arenas.StartingTwiceIsStartingOnce` (on the objects `Games.StartTwice`), `BodiesFollowTheRace`,
  `LiveRankingIsComplete`, `OldCarsRemain`.
- Race: `RaceEndIsExact`, `TimesAreTrue`, `ProgressIsLongestMatch`, `CalculateRankingPositions`, `UpgradeOrderIsFree`.
- Lobby: `OnlyTheRoomLimitBlocks`, `EveryHandlerHasOnePlace`, `ConnectionsAreConserved`,
  `RoomsNeverOverflow`, `JoinsExactly`, `StartedRoomsOnlyShrink`, `QueueIsWhatMembersSent`, `TheLobbyFillsUp`; the objects
  take the same steps by `MonitorLobby.Turn`.
- Protocols: `Downstream.StreamRoundTrip`, `ClientToServer.ActionsAreRecovered`, `NamesFit`, `ListsFit`; over
  sockets by `Wires.ToClient` and `Wires.ToServer`.
- Queue: `AnswersExactly`, `WakeupsAreNeverLost`, `Fifo`, `DeadlockNeedsOneSide`, `ClosedQueueRaisesExactly`.
- Scheduler: `StartLoop`.
- Maps: `EditorAndLoaderUndoEachOther`, `WhatIsLoaded`, `RacesFollowTheDrawing`, `LoadedRoutesCanBeFinished`.

Where the code and its documentation disagree the model follows the code:

- `common/queue.h:24` says that any method on a closed queue raises ClosedQueue; `ClosedQueueHandsOut` and
  `ClosedQueueStillStores` are runs where none is raised, and `ClosedQueueRaisesExactly` states when it is.
- `close` does not wake waiting producers (`CloseWakesOnlyConsumers`).
- The checkpoints of a race start and the list of cars are sent but not kept by the client (`See`).
- A second game on a room goes on at the old race index: for a match of n routes that has been played out, at
  route n of the new map (`SecondGameResumes`).  On the same map it is the last race alone (`SecondGameHasOneRace`),
  and on a map with fewer routes it never leaves the lobby (`LobbyForEver`).  It inherits the totals of the first
  game (`TotalsGoOn`) and the upgrades of its last race (`SecondGameKeepsUpgrades`).
- A start that cuts a market short leaves what was bought there unfitted and owed (`StartFitsNoPurchase`,
  `PurchaseIsLost`).
- With 256 rooms the search for a room id does not end (`FullLobbySearchesForEver`), and clients can bring
  the lobby there (`TheLobbyFillsUp`).  It ends exactly with fewer (`SearchEndsExactly`), and nothing else
  blocks the lobby (`OnlyTheRoomLimitBlocks`).
- Dropping the races of a map destroys no body.  A start replaces the bodies of its own players and NPCs and
  no others, so those of an earlier map with more NPCs stay (`OldCarsRemain`, `OldNpcRemains`).
- A player whose id is 10000 plus the number of an NPC, and an NPC with another 256 places later, lose their
  body to it (`PlayersKeepTheirSpot`, `NpcsKeepTheirSpot`).  Both happen: there is a run of the server that puts
  player 10001 at an NPC's place (`PlayerStandsInForAnNpc`, by `NumbersGrow`), and a map with 257 NPCs takes the
  spot of the first (`FirstNpcLosesItsSpot`).
- The 65535 with which a disqualified player enters the live ranking does not reach the message.

## Model

| member | source | states |
|---|---|---|
| `BlockingQueue.WakeupsAreNeverLost` | common/queue.h:44-130 | For any interleaving of any number of threads: an un-notified waiting consumer sees an empty open queue, an un-notified waiting producer a full one, and the buffer never exceeds its bound |
| `BlockingQueue.StepKeepsWakeups` | common/queue.h:44-130 | The same invariant over one operation, including the conditional `notify_all` on the empty and full edges and spurious wakeups |
| `BlockingQueue.Fifo` | common/queue.h:44-130 | Values popped followed by values queued equal values pushed, in order, over every run |
| `BlockingQueue.DeadlockNeedsOneSide` | common/queue.h:82-119 | With room for one item, producers and consumers are never both stuck: some thread inside can run |
| `BlockingQueue.ZeroCapacityDeadlocks` | common/queue.h:82-119 | The bound above is needed: with `max_size` 0 one producer and one consumer block each other |
| `BlockingQueue.AnswersExactly` | common/queue.h:44-130 | After any run, on an open or a closed queue, every operation answers exactly: a pop of any kind hands out the oldest value stored and not yet taken, if there is one, and otherwise is refused, waits or raises; a push of any kind stores its value if and only if there is room, a new one only while nobody has closed |
| `BlockingQueue.CarriesItsValue` | common/queue.h:82-99 | What a producer stores after a wait is the value with which it began its latest push |
| `BlockingQueue.ClosedQueueRaisesExactly` | common/queue.h:24-24 | The header comment says that any method raises on a closed queue. After any run, exactly a new push does and a pop when everything that went in has come out; else a pop hands out the oldest value left, a producer that was waiting stores or waits on, and a second close raises another exception |
| `BlockingQueue.ClosedQueueHandsOut` | common/queue.h:101-130 | A run in which a pop on the closed queue returns what was stored before |
| `BlockingQueue.ClosedQueueStillStores` | common/queue.h:82-130 | A run in which a producer that waited at the close stores into the closed queue |
| `BlockingQueue.CloseWakesOnlyConsumers` | common/queue.h:121-130 | `close` notifies every waiting consumer and leaves the waiting producers asleep |
| `BlockingQueue.PushesAfterClose` | common/queue.h:82-130 | After `close` only producers that were already waiting still store, each at most once, and the queue stays closed |
| `BlockingQueue.Queue.TryPushVal` | common/queue.h:44-61 | Raises when closed, fails when full, otherwise stores; the whole new state is that of the step machine |
| `BlockingQueue.Queue.TryPopVal` | common/queue.h:63-80 | Takes the oldest item, open or closed; with none it raises when closed and is refused when open (`AnswersExactly`) |
| `BlockingQueue.Queue.PushVal` | common/queue.h:82-99 | A push up to its first wait |
| `BlockingQueue.Queue.PushResume` | common/queue.h:82-99 | A notified producer tries again, without looking at `closed` |
| `BlockingQueue.Queue.PopVal` | common/queue.h:101-119 | A pop up to its first wait |
| `BlockingQueue.Queue.PopResume` | common/queue.h:101-119 | A notified consumer tries again and raises only on a closed empty queue |
| `BlockingQueue.Queue.CloseQueue` | common/queue.h:121-130 | A second `close` raises |
| `ConstantRateLoop.ConstantRateLoopServer.StartLoop` | common/constant_rate_loop_server.cpp:9-38 | Whatever the tick durations, every pass starts exactly at `t0 + iteration * frame_time`, the sleep lies within one frame, and the next deadline is the next grid point when on time and the first one after the clock reading when late |
| `ConstantRateLoop.CatchUp` | common/constant_rate_loop_server.cpp:19-31 | The time skipped by a late pass is a whole number of frames and leads to the first grid point after the clock reading |
| `ConstantRateLoop.FmodRange` | common/constant_rate_loop_server.cpp:19-31 | `fmod` of a lateness lies within one frame |
| `ConstantRateLoop.PreviousAtMost` | common/constant_rate_loop_server.cpp:19-31 | A grid point within one frame after the reading is the first one after it |
| `Rankings.CompareRankIsStrictWeakOrder` | server/game/race.cpp:251-257 | `compare_rank` is a strict weak order, as `std::sort` demands |
| `Rankings.CalculateRankingPositions` | server/game/race.cpp:251-275 | Live positions are a bijection onto 1..n in which more checkpoints passed come first, and with as many the smaller distance; the 65535 of a disqualified player is overwritten |
| `Rankings.PlacedInOrder` | server/game/race.cpp:258-275 | Writing the sorted order's positions onto the snapshot keeps the order |
| `Rankings.SortByTime` | server/game/race.cpp:201-223 | Any sorted permutation by finish time lists every player once |
| `Races.Race.SnapshotTicks` | server/game/race.cpp:277-370 | Whatever the distances and the order of the table: everybody still connected who has a body is shown once, the disqualified included; their positions are 1..n, each given once; who has passed more checkpoints is placed ahead, and with as many, who is nearer to the next if there is one |
| `Arenas.LiveRankingIsComplete` | server/game/race.cpp:277-370 | In every state of every run the live ranking places exactly the players of the match: nobody in the race ever lacks a body |
| `Sorting.Sort` | server/game/race.cpp:201-223 | What the program expects of `std::sort`: a permutation in order, ties in any order |
| `Races.RaceEndIsExact` | server/game/race.cpp:132-193 | After every `advance_time` the race is finished if and only if nobody is active; at ten minutes it is, and exactly the wrecked or overtime participants become disqualified |
| `Races.StoppedForGood` | server/game/race.cpp:28-193 | Over any run nobody who stopped becomes active again, finish times do not move, and times stay within the race |
| `Races.StepKeepsStopped` | server/game/race.cpp:28-193 | One step of any kind revives nobody and moves no finish time |
| `Races.StagesMakeAdvance` | server/game/race.cpp:132-193 | The three checks run one after the other amount to one simultaneous decision for every participant |
| `Races.ProgressIsLongestMatch` | server/game/race.cpp:60-106 | Without cheats `next_checkpoint_idx` is the greatest k such that 0..k-1 is a subsequence of the checkpoints delivered while active; the participant finishes exactly when k reaches the count |
| `Races.EmptyRouteIsNeverFinished` | server/game/race.cpp:60-106 | A route with no checkpoints cannot be finished by driving |
| `RaceTimes.TimesAreTrue` | server/game/race.cpp:60-176 | Over any run of steps from the start line: the time of a finisher is what the clock showed when it was taken, still racing, over the last checkpoint of the route; the time of a disqualified one what it showed after the tick in which its car was out of health or the ten minutes were up.  Told from the steps alone: the ticks that passed and the health last reported |
| `RaceTimes.WhenItStopped` | server/game/race.cpp:28-176 | Whoever has stopped racing was stopped by one step, which says how and with which time |
| `RaceTimes.StopsThen` | server/game/race.cpp:28-176 | And the other way round: whoever is taken over the line, is out or leaves while still racing has stopped for good, with the time of that step |
| `RaceTimes.DisconnectedExactly` | server/game/race.cpp:28-40 | Whoever leaves is marked so for good, finished or not, and nobody else is |
| `RaceTimes.CarsLeaveWithTheirDrivers` | server/game/race.cpp:28-40 | A car is gone exactly when its driver has left |
| `RaceTimes.HealthIsAsReported` | server/game/race.cpp:140-159 | While somebody is racing its car has the health that physics last reported |
| `RaceTimes.CurrentIsBeforeNext` | server/game/race.cpp:60-106 | The current checkpoint is the one before the next |
| `Races.ResultsAreSettled` | server/game/race.cpp:178-223 | In the results of a finished race nobody is active and no time exceeds the race's |
| `Races.NumberedIsResult` | server/game/race.cpp:201-223 | Numbering a list sorted by time gives results 1..n, one per participant |
| `Races.Race.AddPlayer` | server/game/race.cpp:18-26 | A newcomer starts active before checkpoint 0 with its car's life, and its body stands at the spawn point, in meters, in place of any other of its id |
| `Races.Race.RemovePlayer` | server/game/race.cpp:28-40 | The participant is marked disconnected, its car goes, and so does its body |
| `Races.Race.OnCarCheckpoint` | server/game/race.cpp:60-106 | Only an active participant's expected checkpoint of this race's route counts; the last one finishes it at the current time |
| `Races.Race.CheckHealthStates` | server/game/race.cpp:140-159 | Every active participant whose car is out of health is disqualified, in a loop over all of them |
| `Races.Race.CheckTimeLimit` | server/game/race.cpp:161-176 | At the limit every active participant is disqualified at the current time |
| `Races.Race.EvaluateFinish` | server/game/race.cpp:178-193 | The race ends exactly when no participant is active |
| `Races.Race.AdvanceBy` | server/game/race.cpp:132-138 | The three checks in the source's order make the one-step model |
| `Races.Race.BuildRaceResults` | server/game/race.cpp:201-223 | Every participant once, numbered by finish time |
| `Races.Race.InitNpcSpawns` | server/game/race.cpp:108-116 | Every NPC gets the body of 10000 plus its number, which is a byte, at its own spawn point |
| `Races.Race.ClearCars` | server/game/race.cpp:225-235 | Neither cars nor participants are left, and of the bodies exactly those of the cars go |
| `Races.Race.ApplyCheatWin` | server/game/race.cpp:424-438 | The win cheat finishes an active participant of a route that has checkpoints |
| `Markets.AlwaysAffordable` | server/game/market.cpp:19-73 | The catalogue costs exactly the opening balance, so a listed upgrade not owned yet can always be paid |
| `Markets.CostByMembership` | server/game/market.cpp:19-35 | What distinct upgrades cost depends only on which they are |
| `Markets.ChargeKeepsGoodInfo` | server/game/market.cpp:36-73 | A purchase keeps balance plus penalty at 150, upgrades distinct and the penalty equal to their cost |
| `Markets.BuyKeepsGoodInfos` | server/game/market.cpp:36-73 | Any purchase request keeps every player's market record in order |
| `Markets.UpgradeOrderIsFree` | server/game/market.cpp:75-136 | The upgraded car depends on the set of upgrades only, not on the order of purchase |
| `Markets.OneMoreUpgrade` | server/game/market.cpp:75-136 | One turn of the accumulation loop |
| `Markets.Market.BuyUpgrade` | server/game/market.cpp:36-73 | Succeeds if and only if the upgrade is listed and not owned; then it charges exactly its cost |
| `Markets.Market.ApplyUpgradesToModel` | server/game/market.cpp:75-136 | The loop over the purchases raises each figure of the car by its own amount exactly if the upgrade for it is owned, and no other |
| `Markets.Market.ConsumePenaltiesForRace` | server/game/market.cpp:138-154 | Every outstanding penalty is handed out once and all records are cleared |
| `Markets.Market.GetTotalPlayerInfo` | server/game/market.cpp:156-166 | What a player has left is the opening balance less the cost of what it owns, and never below zero, with or without a record |
| `Markets.MarketPhase.Begin` | server/game/market_phase.cpp:4-11 | Every car goes back to its base and the clock to its full time |
| `Markets.MarketPhase.Update` | server/game/market_phase.cpp:13-15 | Time passes and nothing else changes |
| `Markets.MarketPhase.ConsumePendingMarketInit` | server/game/market_phase.cpp:21-39 | The opening message is given once, with every player's balance |
| `Markets.MarketPhase.ApplyUpgradesToAll` | server/game/market_phase.cpp:53-60 | Every player drives its base car, each figure raised exactly if the upgrade for it is owned |
| `Matches.NextKeepsWellFormed` | server/game/game.cpp:142-263 | Every tick and every departure keeps that invariant |
| `Matches.RunKeepsWellFormed` | server/game/game.cpp:142-263 | Every run keeps the invariant of matches |
| `Matches.RaceSeconds` | server/game/race.cpp:195-199 | The seconds shown are the time left, rounded down |
| `Matches.MarketSeconds` | server/game/game.cpp:457-465 | The seconds shown are the time left, rounded up |
| `Matches.TickOfRace` | server/game/race.cpp:132-193 | What one tick of arbitrary physics can do to a race in order |
| `MatchTheorems.TickMoves` | server/game/game.cpp:142-263 | The phase diagram: from the market there is always a next race, so the branch of `finish_market_phase` without one is never taken |
| `MatchTheorems.MoveSpends` | server/game/game.cpp:142-263 | Every tick spends at least one unit of a measure over races left, phase and time left |
| `MatchTheorems.BudgetRunsOut` | server/game/game.cpp:142-263 | No run outlasts its measure |
| `MatchTheorems.EveryMatchEnds` | server/game/game.cpp:142-263 | From the start of race k a match of N races is over after at most (N-k)*36000 + (N-k-1)*1800 ticks, whatever players and physics do, and stands at its last race then |
| `MatchTheorems.FullBudget` | server/game/game.cpp:142-263 | The measure at the start of a race is exactly that number |
| `MatchTheorems.BroadcastsSpellTheMatch` | server/game/gameloop.cpp:58-102 | The broadcasts of every run spell MapInfo* (Results MarketInit MarketTime* RaceStart MapInfo*)^k up to the current phase, from whichever race on; a match finished from race i on has k = N-1-i and ends Results ResultsTotal |
| `MatchTheorems.RunKeepsRoster` | server/game/game.cpp:91-101 | During a match the players only become fewer and keep their base cars |
| `MatchLedger.StartedMatchIsWellFormed` | server/game/game.cpp:387-426 | The first start on a map with races gives a match in order, at the start of its first race, with everybody in its own car |
| `MatchLedger.LedgerBalances` | server/game/game.cpp:200-283 | An auditor who only adds up the broadcasts always agrees with the server's total time and outstanding penalty of every remaining player: each purchase is charged once, with the race after it |
| `MatchLedger.NothingOutstandingAtTheEnd` | server/game/game.cpp:200-222 | When the match is over nobody owes a penalty |
| `MatchLedger.EventIsPosted` | server/game/game.cpp:200-283 | One event's broadcasts move the auditor's account exactly as the match's own |
| `MatchLedger.RunKeepsDriving` | server/game/market_phase.cpp:4-60 | Over every run everybody drives what it should: its own car with what it bought in the latest market, and in a market its own car |
| `MatchLedger.CarsDoNotAccumulate` | server/game/market_phase.cpp:4-60 | Over any number of races a player drives its car from the garage plus the latest purchases, so life never passes 250 |
| `Purchases.PurchasesAreTold` | server/game/gameloop.cpp:22-56 | In every state of every run the accounts hold exactly the upgrades that the player was told it got since the last results |
| `Purchases.CarsAreWhatWasBought` | server/game/market.cpp:75-136 | In every race everybody drives its own car with what it was told it got in the market before, figure by figure: top speed 0.5 more exactly with Speed, force 4 more exactly with Acceleration, torque 2 with Controllability, life 50 with Health, mass 50 less but not below zero with Mass, and nothing else |
| `Purchases.RequestsAreAnswered` | server/game/gameloop.cpp:28-46 | At any moment of any run a request for an improvement is granted exactly in a market, for a listed upgrade that the player was not told it got since the last results, with the balance that is left of 150; outside the catalogue there is no answer in a market, and a refusal otherwise |
| `MatchTimes.PublishedTimesAreTrue` | server/game/game.cpp:200-222 | Every time published at the end of a race is the number of ticks from its start to the one in which physics took the player over the last checkpoint of the route, or to the one after which its car was out of health or the ten minutes were up |
| `MatchTimes.ClocksAreRight` | server/game/gameloop.cpp:91-101 | On every second tick the clients are told the time of the race, in whole seconds left of 600, rounded down, or that of the market, in seconds left of 30, rounded up, counted in ticks since it began |
| `Garages.EverybodyDrivesFromTheGarage` | server/game/game.cpp:66-89 | Whatever cars those who come in ask for, everybody inside has a car of the garage, with 200 of health and no upgrade |
| `Garages.EnteringKeepsGarage` | server/game/garage.cpp:32-49 | Coming in keeps that everybody's own car is one of the garage's |
| `Garages.EveryCarIsOnOffer` | server/game/garage.cpp:9-20 | The cars on offer are those numbered 0 to 6, all with 200 of health and without upgrades |
| `MatchLedger.MarketNeverRunsOutOfMoney` | server/game/market.cpp:36-73 | In every reachable state balance plus penalty is 150 and what is not owned is affordable |
| `MatchLedger.RaceFollowsItsEvents` | server/game/game.cpp:142-198 | While a race is on, its state is what the events of its ticks make of it |
| `MatchLedger.ProgressDuringTheMatch` | server/game/race.cpp:60-106 | In a match without cheats every participant's progress is the longest match of what was reported since the race started |
| `RoomLives.LifeKeepsOrder` | server/game/game.cpp:142-426 | Over the whole life of a room's game, with starts as often and whenever they come, also in the middle of a race or a market: the match stays well formed, exactly the connected participants of a race have bodies, and nobody drives more than its own car with each upgrade once |
| `RoomLives.TotalsGoOn` | server/game/game.cpp:200-426 | The ledger goes on from game to game: what was broadcast over the whole life of a room adds up to the totals and penalties that the server holds, so a second game does not begin at zero and no start forgets a penalty |
| `RoomLives.IndexNeverFalls` | server/game/game.cpp:421-426 | The index of the race never falls over the life of a room: `load_map` keeps it |
| `RoomLives.UpgradesNeverAddUp` | server/game/market_phase.cpp:4-60 | Over any number of games a player's car is its own with a set of upgrades, each at most once, so with 250 of health at most |
| `RoomLives.RunsAreLives` | server/game/game.cpp:142-198 | A run of a match is a life without a start, so what holds of lives holds of runs and the other way round |
| `SecondGames.SecondGameResumes` | server/game/game.cpp:387-426 | A match run to its end on n routes and started again goes on at route n of the new map, with the players and totals it has; on a map with fewer routes it stays in the lobby |
| `SecondGames.LobbyForEver` | server/game/game.cpp:142-147 | There it stays over every run, and nothing is broadcast but the refusals of improvement requests |
| `SecondGames.SecondGameHasOneRace` | server/game/game.cpp:142-263 | On a map with as many routes the second game has one race, the last, and no market; it is over after 36000 ticks, and all that is broadcast, acknowledgements aside, is MapInfo*, and Results ResultsTotal at the end |
| `SecondGames.TheEndIsFinal` | server/game/game.cpp:149-152 | After the end players can only leave, with nothing about the others changed |
| `SecondGames.SecondGameKeepsUpgrades` | server/game/game.cpp:200-222 | The first race of a second game is driven with the upgrades of the last race of the first, which nobody pays for again: the car is the player's own if and only if it bought nothing in the last market |
| `SecondGames.StartFitsNoPurchase` | server/game/game.cpp:421-426 | A start before the end leaves everybody in the car it should be driving if and only if the start did not cut short a market in which the player had bought something; the penalty stays on the account |
| `SecondGames.PurchaseIsLost` | server/game/game.cpp:421-426 | A run in which that happens: the player has bought more health, drives its own car, and owes 40 seconds |
| `Games.Result.BuildPlayerResultCurrent` | server/game/result.cpp:4-41 | The players still present, in strictly increasing position, with finish time, penalty and new total |
| `Games.Result.BuildTotalResults` | server/game/result.cpp:43-64 | Every player once, best total first, numbered 1..n |
| `Games.Result.SetPendingResults` | server/game/result.cpp:66-69 | Results wait until they are asked for |
| `Games.Result.ConsumePendingResults` | server/game/result.cpp:75-80 | Race results are given once |
| `Games.Result.SetPendingTotalResults` | server/game/result.cpp:82-85 | The final table waits until it is asked for |
| `Games.Result.ConsumePendingTotalResults` | server/game/result.cpp:91-96 | The final table is given once |
| `Games.Game.LoadMap` | server/game/game.cpp:421-426 | The city takes over the map, the walls in the world become exactly those of the map, and there are new races, the lobby state and the old race index |
| `Games.Game.InitRaces` | server/game/game.cpp:467-486 | One fresh race per route, in order; no body is touched |
| `Games.Game.StartCurrentRace` | server/game/game.cpp:387-409 | In the order of their ids everybody enters the current race, with a body at the spawn point of the turn, and then the NPCs; with no race nothing changes |
| `Games.Game.RemovePlayer` | server/game/game.cpp:91-101 | The player leaves the match and its current race, and if there is one also the map |
| `Games.Game.BuyUpgrade` | server/game/game.cpp:285-294 | Purchases count only while the market is open |
| `Games.Game.ApplyCheat` | server/game/game.cpp:488-492 | Cheats count only during a race |
| `Games.Game.OnRaceEnded` | server/game/game.cpp:200-222 | Times and penalties are registered once, results prepared, and market or final table follow |
| `Games.Game.LeaveRace` | server/game/game.cpp:245-252 | The bodies of the last race's cars go, and the index moves on |
| `Games.Game.AdvanceToNextRace` | server/game/game.cpp:238-263 | The next race starts with everybody on its grid and is announced |
| `Games.Game.FitUpgrades` | server/game/game.cpp:238-263 | Every player's car gets what it bought; nothing else changes |
| `Games.Game.MoveOn` | server/game/game.cpp:244-262 | After the upgrades: the next race, or the end, with the bodies of either |
| `Games.Game.FinishMarketPhase` | server/game/game.cpp:238-263 | Upgrades are fitted, then the next race starts |
| `Games.Game.UpdateMarket` | server/game/game.cpp:142-198 | One tick of an open market: the clock falls, and at zero the next race starts |
| `Games.Game.UpdateRace` | server/game/game.cpp:142-198 | One tick of a race: bodies move, and results are pending exactly when it ends the race |
| `Games.Game.Update` | server/game/game.cpp:142-198 | One tick takes the step of the match and of the world in every state |
| `Games.Game.StartRoomGame` | server/room_manager.cpp:288-291 | The map is loaded and the current race started: match and world are those of the start on values.  Spawn points are asked for only if there is a race to start and somebody to start it |
| `Games.StartTwice` | server/client_thread_recv.cpp:53-59 | Both start requests that the receiving thread makes of one, on the objects: the match is as after the first, everybody is on the grid once, and no body of the first start is left |
| `Arenas.StartingTwiceIsStartingOnce` | server/room_manager.cpp:288-291 | From any match and any sound world: after one start and after two the match is the same, the walls are those of the map, every player and every NPC has exactly one body, at its spot, no body of the first start survives the second, and the bodies of other ids are untouched |
| `Arenas.StartLinesUp` | server/game/game.cpp:387-426 | After one start everybody is on the grid: one body each, players on the spawn points of the route in turn, NPCs on theirs |
| `Arenas.EveryRaceLinesUp` | server/game/game.cpp:238-263 | Not only at a start: whenever a market closes, everybody is on the grid of the next route, one body each |
| `BodyPlaces.BodiesAreWhereReported` | server/game/game.cpp:142-198 | Over any run in the course of a race every body that is left is where physics reported it last, or where it stood |
| `Arenas.OldCarsRemain` | server/game/game.cpp:467-486 | Dropping the races destroys no body: a car from before a start survives it if and only if nothing with its id is on the new grid |
| `Arenas.OldNpcRemains` | server/game/race.cpp:108-116 | With any players in the room: a start on a map with two NPCs and then one on a map with a single NPC leave the body of the second NPC standing |
| `Arenas.FirstNpcLosesItsSpot` | server/game/race.cpp:108-116 | With 257 NPCs the first and the last have the same body, and it stands where the last should |
| `Arenas.PlayerLosesItsSpot` | server/game/game.cpp:396-405 | A player with the number of an NPC's body starts where the NPC should and not at its own spawn point |
| `Arenas.BodiesFollowTheRace` | server/game/game.cpp:91-263 | Over every run no body is doubled or out of reach, and during a race exactly the participants who are still connected have one |
| `Arenas.NextKeepsArena` | server/game/game.cpp:91-263 | One tick or departure keeps that |
| `Grids.PlayersKeepTheirSpot` | server/game/game.cpp:396-405 | A player starts at its own spawn point if and only if its id is not the body of an NPC |
| `Grids.NpcsKeepTheirSpot` | server/game/race.cpp:108-116 | An NPC keeps its spot if and only if no other comes 256 places later and takes its number |
| `Grids.RosterIsInOrder` | server/game/game.cpp:396-403 | The players are gone through once each, by ascending id |
| `PhysicsWorlds.StartingTwiceLeavesOneOfEach` | server/physics/physics_world.cpp:13-122 | Loading geometry and placing cars twice over, from any sound world: one body per id placed, at its last place, the walls of the second map alone, nothing of the first time |
| `PhysicsWorlds.SurvivorsAreOthers` | server/physics/physics_world.cpp:13-86 | Of what there was before, only cars that are not placed survive |
| `PhysicsWorlds.PlaceAllPlaces` | server/physics/physics_world.cpp:13-63 | Placing any list of cars keeps the table sound, puts each id at its last place with a new body, and leaves other cars and the walls alone |
| `PhysicsWorlds.LoadingReplacesWalls` | server/physics/physics_world.cpp:79-122 | Loading puts up exactly the walls of the map, all new, and leaves the cars alone |
| `PhysicsWorlds.PhysicsWorld.CreateCarBody` | server/physics/physics_world.cpp:13-49 | The car's old body goes first, so an id never has two |
| `PhysicsWorlds.PhysicsWorld.GetBody` | server/physics/physics_world.cpp:51-55 | In a world in order the body handed out is the only one the car has, and none is handed out exactly when the car has none |
| `PhysicsWorlds.PhysicsWorld.DestroyBody` | server/physics/physics_world.cpp:57-63 | Body and table entry go together, or nothing does |
| `PhysicsWorlds.PhysicsWorld.Step` | server/physics/physics_world.cpp:65-69 | Bodies move, and none comes or goes |
| `PhysicsWorlds.PhysicsWorld.ClearStaticGeometry` | server/physics/physics_world.cpp:79-86 | Every wall goes and nothing else does |
| `PhysicsWorlds.PhysicsWorld.LoadStaticGeometry` | server/physics/physics_world.cpp:88-122 | One body per rectangle, per line of two points or more, and per checkpoint of every route, after the old ones are gone |
| `Games.ApplyRaceResults` | server/game/game.cpp:265-283 | Going through the result list registers every remaining player's race exactly once |
| `Games.RegisteredAll` | server/game/game.cpp:265-283 | The list order does not matter |
| `Games.PackedAllIsCurrent` | server/game/result.cpp:4-41 | The filtered list names every remaining participant once |
| `Gameloops.Gameloop.ProcesarActiones` | server/game/gameloop.cpp:23-56 | Draining the queue acts in order and acknowledges every purchase request, but for one that asks an open market for an upgrade it does not list, which is answered by nothing |
| `Gameloops.Gameloop.Announce` | server/game/gameloop.cpp:58-102 | The pending messages are asked for in the source's order, each once |
| `Gameloops.Gameloop.FuncTick` | server/game/gameloop.cpp:58-102 | One tick of the object takes one step of the match and of the world and broadcasts exactly its messages |
| `Gameloops.Gameloop.UpdateAndBroadcast` | server/game/gameloop.cpp:60-101 | What a tick does after the actions, with the results it announces |
| `Gameloops.Gameloop.Run` | server/game/gameloop.cpp:58-107 | The loop over any inputs is a run of the match, keeps bodies and participants together, and a match is over when the inputs outnumber its budget |
| `Lobbies.SearchEndsExactly` | server/room_manager.cpp:6-15 | The loop that looks for a room id stops after some number of turns if and only if fewer than 256 ids are in use |
| `Lobbies.FreeIdStops` | server/room_manager.cpp:6-15 | If any turn would show a free id, the loop stops at the first such turn |
| `Lobbies.StopsOnce` | server/room_manager.cpp:6-15 | Wherever the loop stops, its id is the one that the search of one round finds |
| `Lobbies.NextRoomIdIsFree` | server/room_manager.cpp:6-15 | The id of a new room is not in use |
| `Lobbies.NextKeepsInv` | server/monitor_lobby.cpp:49-103 | Every handler keeps the bijection of bindings, client lists and the games' players, the rooms that bindings name, capacities and distinct places |
| `Lobbies.CreateKeepsInv` | server/monitor_lobby.cpp:52-81 | Creating a room, after leaving the old one, keeps the tables in bijection |
| `Lobbies.JoinKeepsInv` | server/room_manager.cpp:50-103 | Joining keeps the tables in bijection, whether it succeeds or not |
| `Lobbies.LeaveKeepsInv` | server/room_manager.cpp:105-168 | Leaving keeps the tables in bijection, also when the room closes |
| `Lobbies.ReapKeepsInv` | server/room_manager.cpp:203-251 | Reaping any set of dead connections keeps the tables in bijection |
| `Lobbies.WithoutKeepsOthers` | server/client_list.cpp:160-174 | Removing one handler keeps exactly the others |
| `Lobbies.AliveKeepsOthers` | server/client_list.cpp:14-29 | Reaping keeps exactly the live handlers |
| `Lobbies.RosterGains` | server/game/game.cpp:66-89 | A new player gets an id nobody has |
| `Lobbies.FreePlayer` | server/game/game.cpp:75-77 | The id found is unused |
| `LobbyTheorems.OnlyTheRoomLimitBlocks` | server/monitor_lobby.cpp:211-268 | Over every run the lobby stays in order, and the only request it cannot finish is one for a 257th room |
| `LobbyTheorems.FullLobbySearchesForEver` | server/room_manager.cpp:6-15 | With 256 rooms every turn of the loop, however many there have been, leads to another id in use |
| `LobbyTheorems.TheLobbyFillsUp` | server/room_manager.cpp:6-15 | There is a run from the empty lobby to one with 256 rooms, after which the next creation does not end |
| `LobbyTheorems.RoomsFillUp` | server/monitor_lobby.cpp:32-103 | For every n up to 256 a run of n arrivals, each opening a room, that leads to n rooms |
| `LobbyTheorems.StepQueues` | server/monitor_lobby.cpp:120-209 | A room's queue gets nothing but what its own members send, and that at its end |
| `LobbyTheorems.QueueIsWhatMembersSent` | server/room_manager.cpp:170-201 | Over any run, while a room lasts, its queue gets exactly what was sent by whoever was in it at the time, in order, under the sender's number there |
| `LobbyTheorems.RunKeepsInv` | server/monitor_lobby.cpp:211-268 | From any lobby in order every run leads to a lobby in order |
| `LobbyTheorems.EveryHandlerHasOnePlace` | server/room_manager.cpp:50-168 | A handler is in the list of the room its connection is bound to, once, and in no other, and then it is not pending |
| `LobbyTheorems.StepConserves` | server/monitor_lobby.cpp:32-103 | Only an arrival adds a connection and only reaping removes one |
| `LobbyTheorems.ConnectionsAreConserved` | server/monitor_lobby.cpp:32-103 | Over every run the connections that arrived are exactly the live and the reaped ones, never both |
| `LobbyTheorems.RoomsNeverOverflow` | server/room_manager.cpp:50-60 | No room ever has more than eight clients, and it has as many players as clients |
| `LobbyTheorems.StepSparesStarted` | server/room_manager.cpp:50-60 | No step lets anybody into a started room or turns a member into another player |
| `LobbyTheorems.StartedRoomsOnlyShrink` | server/room_manager.cpp:50-168 | While a room stays started its membership only shrinks, over any run |
| `LobbyTheorems.OnlyTheCreatorStarts` | server/monitor_lobby.cpp:145-162 | A room becomes started by its creator's request from inside it, and by nothing else |
| `LobbyTheorems.NamesReachTheGame` | server/monitor_lobby.cpp:105-118 | The name given while waiting is the player's name in the room joined next |
| `LobbyTheorems.RenamingReachesTheGame` | server/monitor_lobby.cpp:105-118 | The name that a member gives becomes its player's, and nobody else's changes |
| `LobbyTheorems.JoinsExactly` | server/room_manager.cpp:50-103 | Over every run a request to join is granted if and only if the client waits, has chosen no car or one of the seven, and the room exists, has not started and has fewer than eight clients |
| `ChosenCars.TheChosenCarIsDriven` | server/monitor_lobby.cpp:167-171 | On the server: whoever has chosen cars and is then taken in by a room has a new player in that room's game with the car of its last choice, as base and as current car, and nobody else changes; with a car that does not exist it stays outside and nobody comes in.  Either way the choice is spent |
| `ChosenCars.CreatorsDriveTheirChoice` | server/room_manager.cpp:62-73 | The same of whoever opens a room, also from inside another one |
| `ChosenCars.LastChoiceCounts` | server/pending_manager.cpp:61-73 | Over any run the last choice counts, and no other request touches it until a room takes the client in or turns it away for its car |
| `LobbyTheorems.CreateOpensAFreshRoom` | server/monitor_lobby.cpp:52-81 | A creation adds one room under a fresh id and touches no other; its creator is inside unless it is not connected or chose a car that does not exist |
| `PlayerNumbers.NumbersGrow` | server/game/game.cpp:66-89 | For every n some run of two clients ends with players n and n + 1 in a room that its creator can start: leaving and coming back in turn, each gets the next number |
| `PlayerNumbers.TakingTurns` | server/room_manager.cpp:50-168 | One leaves and comes back: the pair of numbers goes up by one |
| `Servers.AskKeepsInv` | server/room_manager.cpp:50-315 | Every request keeps lobby and games together: each room has one game, with exactly the players of its table, in order, and waiting while the room is not started |
| `Servers.RequestChanges` | server/room_manager.cpp:50-251 | What a request of any kind does to the player table of a room is what it does to the players of its game: who leaves, in the order of the client list, and who comes in |
| `Servers.TheDeadAreFound` | server/room_manager.cpp:203-223 | Going through the client list takes the players of the dead connections out of the game, each of them once and nobody else |
| `Servers.DeparturesKeep` | server/room_manager.cpp:203-223 | Taking players out of a game one after the other is a legal run of it and keeps it in order |
| `Servers.TickKeepsHall` | server/game/gameloop.cpp:58-102 | A tick of a room's loop keeps its game in order, and a game that waits goes on waiting |
| `ServerTheorems.EveryRoomHasItsGame` | server/room_manager.cpp:50-315 | In every reachable state of the server a room's game has exactly the players that its members are bound to, an unstarted room's game waits on an empty map, and nobody drives more than its own car with each upgrade once |
| `ServerTheorems.GamesBeginExactly` | server/monitor_lobby.cpp:145-162 | A waiting game becomes a race if and only if the room's creator asks for it from inside, with a map that can be read and has a route |
| `ServerTheorems.MembersLineUp` | server/room_manager.cpp:273-315 | The first start of a room puts exactly its members on the line of the first route, active, with one body each and no time on their accounts, in a match in order; no other room notices |
| `ServerTheorems.StartedRoomsLiveTheirLives` | server/room_manager.cpp:105-315 | Over any run during which a room stays started, its game is what its own ticks, departures and starts make of it, in their order, and nothing else touches it |
| `ServerTheorems.TotalsGoOnInTheServer` | server/room_manager.cpp:273-315 | On the server the ledger of a started room goes on over all the games started in it, and the index of its race never falls |
| `ServerTheorems.PlayerStandsInForAnNpc` | server/game/race.cpp:108-116 | A run from the empty server to a race in which player 10001 has the body of the first NPC, at the NPC's place and not at its own |
| `LobbyTheorems.MovingKeepsTheName` | server/room_manager.cpp:50-168 | A player that moves keeps its name exactly when the car it chose exists; otherwise it stays outside and the name is lost |
| `MonitorLobbies.PendingManager.AddPending` | server/pending_manager.cpp:4-8 | Stores the handler |
| `MonitorLobbies.PendingManager.TakePending` | server/pending_manager.cpp:10-17 | Gives the handler out and forgets it |
| `MonitorLobbies.PendingManager.StorePendingName` | server/pending_manager.cpp:47-50 | Stores a name for the next join |
| `MonitorLobbies.PendingManager.TakePendingName` | server/pending_manager.cpp:52-59 | Gives the name out and forgets it |
| `MonitorLobbies.PendingManager.StorePendingCar` | server/pending_manager.cpp:61-64 | Stores a car for the next join |
| `MonitorLobbies.PendingManager.TakePendingCar` | server/pending_manager.cpp:66-73 | Gives the car out and forgets it |
| `MonitorLobbies.BindingManager.AddBinding` | server/binding_manager.cpp:4-7 | Binds a connection |
| `MonitorLobbies.BindingManager.RemoveBinding` | server/binding_manager.cpp:9-16 | Unbinds it |
| `MonitorLobbies.BindingManager.ConnsInRoom` | server/binding_manager.cpp:25-32 | Lists every connection of the room once, in the table's order |
| `MonitorLobbies.BindingManager.CountInRoom` | server/binding_manager.cpp:34-39 | Counts them |
| `MonitorLobbies.RemoverPorConnId` | server/client_list.cpp:160-174 | Gives out the handler of the connection if it is there and keeps the rest in order |
| `MonitorLobbies.ReapClients` | server/client_list.cpp:14-29 | Keeps the live handlers in order and reports exactly the dead ones |
| `MonitorLobbies.AddPlayer` | server/game/game.cpp:66-89 | The first free id from the running index on; a car the garage does not have is refused |
| `MonitorLobbies.RoomManager.SkipUsedIds` | server/room_manager.cpp:8-8 | The loop stops at the first id not in use |
| `MonitorLobbies.RoomManager.CreateRoom` | server/room_manager.cpp:6-15 | The new room has the id found, which was not in use, and nothing else changes |
| `MonitorLobbies.RoomManager.ListRoomsWithCounts` | server/room_manager.cpp:32-47 | Exactly the rooms not started, by id, each with its number of members |
| `MonitorLobbies.RoomManager.PlayersList` | server/room_manager.cpp:85-94 | One entry per member with its player's name; only the creator is admin; no lookup fails |
| `MonitorLobbies.RoomManager.JoinRoomFromPending` | server/room_manager.cpp:50-103 | Takes the step of the model, and says whether the connection got in; on a refused car the handler goes back to pending |
| `MonitorLobbies.RoomManager.MoveIn` | server/room_manager.cpp:61-103 | The handler leaves the pending ones, unless the car is refused |
| `MonitorLobbies.RoomManager.Admit` | server/room_manager.cpp:64-77 | Spends the pending name and car and admits the handler unless the car is refused |
| `MonitorLobbies.RoomManager.DetachFromRoom` | server/room_manager.cpp:105-168 | Takes the step of the model and gives the handler back |
| `MonitorLobbies.RoomManager.TakeOut` | server/room_manager.cpp:117-153 | List, name, player and binding change together, and an empty room is erased |
| `MonitorLobbies.RoomManager.Reap` | server/room_manager.cpp:203-251 | Visiting the rooms one by one amounts to removing all the dead at once |
| `MonitorLobbies.RoomManager.ReapRoom` | server/room_manager.cpp:207-249 | One room's dead leave list, game and bindings |
| `MonitorLobbies.RoomManager.StartRoomGame` | server/room_manager.cpp:273-283 | The room is marked started |
| `MonitorLobbies.RoomManager.ApplyPlayerName` | server/room_manager.cpp:317-322 | Renames one player |
| `MonitorLobbies.RoomManager.PushToRoom` | server/room_manager.cpp:170-201 | The action stands at the end of the room's queue, under the player's number; without the room nothing happens |
| `MonitorLobbies.MonitorLobby.Accept` | server/monitor_lobby.cpp:32-42 | A new connection gets the next id and is pending |
| `MonitorLobbies.MonitorLobby.HandleCreate` | server/monitor_lobby.cpp:52-81 | The connection leaves its room, a room is opened and it joins it: the resulting tables are exactly those of the creation step |
| `MonitorLobbies.MonitorLobby.OpenRoom` | server/monitor_lobby.cpp:61-81 | Opens the room and lets its pending creator in |
| `MonitorLobbies.MonitorLobby.HandleJoin` | server/monitor_lobby.cpp:82-87 | The tables afterwards are those of a join: the open room with space gains the pending connection, otherwise nothing or only the pending name and car change |
| `MonitorLobbies.MonitorLobby.HandleLeave` | server/monitor_lobby.cpp:88-98 | The connection is out of its room and pending again; without a room nothing changes |
| `MonitorLobbies.MonitorLobby.HandleRoomAction` | server/monitor_lobby.cpp:49-103 | Dispatch on the command; an unknown one changes nothing |
| `MonitorLobbies.MonitorLobby.HandleNameAction` | server/monitor_lobby.cpp:105-118 | Stores the pending name, or renames the player of a bound connection |
| `MonitorLobbies.MonitorLobby.HandleStartGame` | server/monitor_lobby.cpp:145-165 | Only the room's creator starts it |
| `MonitorLobbies.MonitorLobby.HandleChooseCar` | server/monitor_lobby.cpp:167-171 | The choice is stored, even inside a room; what comes of it is `TheChosenCarIsDriven` |
| `MonitorLobbies.MonitorLobby.Route` | server/monitor_lobby.cpp:120-209 | A move, purchase or cheat of a bound connection ends up in its room's queue as the bound player's; of another one nowhere |
| `MonitorLobbies.MonitorLobby.Reap` | server/monitor_lobby.cpp:233-237 | All dead connections are out of every table at once, and rooms without members are gone |
| `MonitorLobbies.MonitorLobby.Dispatch` | server/monitor_lobby.cpp:20-30 | Every kind of action leads to the tables and queues of its step |
| `MonitorLobbies.MonitorLobby.Turn` | server/monitor_lobby.cpp:211-237 | Draining any queue of actions and reaping is a run of the model |
| `Bytes.NamesFit` | server/server_protocol.cpp:63-84 | A length-prefixed name survives, whatever follows it, if and only if it has fewer than 65536 bytes |
| `Bytes.ListsFit` | server/server_protocol.cpp:86-100 | A counted list survives, whatever follows it, if and only if it has fewer than 256 elements, for any element encoding that survives |
| `Bytes.TimesTakesAll` | client/client_protocol.cpp:73-88 | Taking n elements off undoes putting n elements on |
| `Bytes.U16` | server/server_protocol.cpp:25-40 | Two bytes, big-endian, that read back as the number |
| `Bytes.U32` | server/server_protocol.cpp:16-20 | Four bytes, big-endian, that read back as the number |
| `Bytes.Unsigned16` | client/client_protocol.cpp:66-68 | The two's complement of a signed coordinate reads back as it |
| `Bytes.Unsigned32` | client/client_protocol.cpp:321-322 | The two's complement of a 32-bit coordinate reads back as it |
| `Downstream.MessageSurvives` | client/client_protocol.cpp:50-396 | Every message the server can send whole is read back as what the client keeps of it, and nothing of what follows is touched; dropped payloads are skipped to their last byte |
| `Downstream.TickSurvives` | client/client_protocol.cpp:284-339 | A player's snapshot, with its name, signed coordinates and list of improvements |
| `Downstream.MapInfoSurvives` | client/client_protocol.cpp:275-372 | Three nested lists and a clock |
| `Downstream.PlayersSurvive` | client/client_protocol.cpp:123-165 | The list of players of a room |
| `Downstream.CarsAreSkipped` | client/client_protocol.cpp:173-183 | The list of cars takes exactly its own bytes and is forgotten |
| `Downstream.RaceStartSurvives` | client/client_protocol.cpp:185-201 | The checkpoints take exactly their own bytes and are forgotten |
| `Downstream.ResultsSurvive` | client/client_protocol.cpp:231-250 | The results of a race |
| `Downstream.TotalsSurvive` | client/client_protocol.cpp:203-229 | The final table |
| `Downstream.RoomsSurvive` | client/client_protocol.cpp:73-88 | The list of rooms |
| `Downstream.ImprovementSurvives` | client/client_protocol.cpp:252-273 | The acknowledgement of a purchase |
| `Downstream.PosSurvives` | client/client_protocol.cpp:56-71 | A position with signed 16-bit coordinates |
| `Downstream.StreamRoundTrip` | client/client_protocol.cpp:384-396 | Receiving until the end of the stream gives exactly the messages sent, in order, with no byte left over |
| `Downstream.ArrivesAsSent` | client/client_protocol.cpp:60-420 | But for the list of cars, the checkpoints of a race start and `meta` beyond a flag, the client receives every message of a stream exactly as it was sent |
| `Downstream.StreamGrows` | server/server_protocol.cpp:11-396 | Sending messages one by one makes the stream of all of them |
| `ClientToServer.MessageSurvives` | server/server_protocol.cpp:415-497 | Every client message is read back exactly, but for the third byte of ROOM_LEAVE, which stays in the stream |
| `ClientToServer.StrayByte` | server/server_protocol.cpp:402-413 | The byte left behind is in no dispatch entry: one unknown message, nothing else consumed |
| `ClientToServer.StreamRoundTrip` | server/server_protocol.cpp:486-497 | The server receives the messages sent, in order, with one unknown message after each departure |
| `ClientToServer.PushedAreTheActions` | server/client_thread_recv.cpp:34-88 | Of any messages: without the second of each doubled start the actions are the messages that are neither exits nor unknown, in order; a start stands there twice as often as it came, exits and unknown messages never, every other message as often as it came |
| `ClientToServer.ActionsAreRecovered` | server/client_thread_recv.cpp:13-91 | Over the wire: the actions pushed are the messages sent, in order, but for exits, each once and a start twice; the third byte of a departure makes none |
| `Sockets.Socket.RecvSome` | common/socket.cpp:249-269 | Any positive number of the bytes asked for; when there are none left the end of the stream, or the exception of an error |
| `Sockets.Socket.RecvAll` | common/socket.cpp:322-354 | Exactly the bytes asked for under every chunking; nothing at the end of the stream; an exception if it ends in between or breaks |
| `Sockets.Socket.SendSome` | common/socket.cpp:271-320 | Any number of bytes goes out; none when the peer is gone, or with an exception |
| `Sockets.Socket.SendAll` | common/socket.cpp:357-376 | Everything in order and nothing twice, or a prefix and a report of which of the three failures it was |
| `ServerProtocols.RoomsBytes` | server/server_protocol.cpp:86-100 | The buffer built in the loop is the encoding of the room list, whatever its length |
| `ServerProtocols.PlayersListBytes` | server/server_protocol.cpp:108-156 | The buffer built in the loop is the encoding of the players list |
| `ServerProtocols.CarListBytes` | server/server_protocol.cpp:190-206 | The buffer built in the loop is the encoding of the car list |
| `ServerProtocols.RaceStartBytes` | server/server_protocol.cpp:208-225 | The buffer built is the encoding of a race start with its checkpoints |
| `ServerProtocols.TotalBytes` | server/server_protocol.cpp:227-251 | The buffer built is the encoding of the final table |
| `ServerProtocols.AppendTick` | server/server_protocol.cpp:263-310 | One player of a snapshot; improvements beyond 255 are cut |
| `ServerProtocols.MapInfoBytes` | server/server_protocol.cpp:253-333 | The buffer built by three nested loops is the encoding of a snapshot |
| `ServerProtocols.ResultsBytes` | server/server_protocol.cpp:347-373 | The buffer built is the encoding of the results of a race |
| `ServerProtocols.ImprovementBytes` | server/server_protocol.cpp:375-391 | The buffer built is the encoding of an acknowledgement |
| `ServerProtocols.PosBytes` | server/server_protocol.cpp:22-51 | The buffer built is the encoding of a position |
| `ServerProtocols.PlayerNameBytes` | server/server_protocol.cpp:63-84 | The buffer built is the encoding of a name cut where its 16-bit length says |
| `ServerProtocols.MessageBytes` | server/server_protocol.cpp:11-396 | For every kind of message the bytes are its encoding |
| `ServerProtocols.ServerProtocol.Send` | server/server_protocol.cpp:11-396 | The message goes out whole behind what went before, or a prefix of it |
| `ServerProtocols.ServerProtocol.RunSender` | server/client_thread_send.cpp:13-93 | Unless the connection breaks, the queue's messages go out as one stream |
| `ServerProtocols.ServerProtocol.ParseRoom` | server/server_protocol.cpp:432-441 | Only a join reads a room |
| `ServerProtocols.ServerProtocol.ParseStartGame` | server/server_protocol.cpp:444-458 | From any bytes that hold the counted list of races, exactly it is read |
| `ServerProtocols.ServerProtocol.ParseBody` | server/server_protocol.cpp:415-484 | The code decides what is read; an unknown code consumes nothing more |
| `ServerProtocols.ServerProtocol.Receive` | server/server_protocol.cpp:486-497 | On any stream that holds a whole message, exactly that message; behind the last one none, or the error of the connection |
| `ServerProtocols.ServerProtocol.RunReceiver` | server/client_thread_recv.cpp:9-106 | The thread pushes the actions of every message up to the end of the stream or to the error that breaks it |
| `ServerProtocols.Push` | server/client_thread_recv.cpp:34-88 | The switch pushes a start twice, exits and unknown messages not at all, and every other message once |
| `ClientProtocols.ClientProtocol.ParseRooms` | client/client_protocol.cpp:73-88 | From any bytes that hold a room list, exactly that list is read and its bytes consumed |
| `ClientProtocols.ClientProtocol.ParsePlayersList` | client/client_protocol.cpp:123-165 | From any bytes that hold a players list, exactly that list is read and its bytes consumed |
| `ClientProtocols.ClientProtocol.ParseCarList` | client/client_protocol.cpp:173-183 | Consumes exactly the bytes of the car list |
| `ClientProtocols.ClientProtocol.ParseRaceStart` | client/client_protocol.cpp:185-201 | Keeps the map and consumes exactly the bytes of the checkpoints |
| `ClientProtocols.ClientProtocol.ParseResults` | client/client_protocol.cpp:203-229 | From any bytes that hold a final table, exactly that table is read and its bytes consumed |
| `ClientProtocols.ClientProtocol.ParseResultRaceCurrent` | client/client_protocol.cpp:231-250 | From any bytes that hold race results, exactly those are read and their bytes consumed |
| `ClientProtocols.ClientProtocol.ParseImprovement` | client/client_protocol.cpp:252-273 | An acknowledgement is read field by field, and nothing behind it |
| `ClientProtocols.ClientProtocol.ParseTick` | client/client_protocol.cpp:284-339 | One player of a snapshot is read, with name and improvements, and nothing behind it |
| `ClientProtocols.ClientProtocol.ParseMapInfo` | client/client_protocol.cpp:275-372 | From any bytes that hold a snapshot, exactly it is read and its bytes consumed |
| `ClientProtocols.ClientProtocol.ParseBody` | client/client_protocol.cpp:50-382 | The code decides what is read; an unknown code consumes nothing more |
| `ClientProtocols.ClientProtocol.Receive` | client/client_protocol.cpp:384-396 | On any stream that holds a whole message, exactly that message; behind the last one none, or the error of the connection |
| `ClientProtocols.ClientProtocol.ReceiveToTheEnd` | client/client_protocol.cpp:384-396 | All messages up to the end of the stream |
| `ClientProtocols.ClientProtocol.Send` | client/client_protocol.cpp:398-497 | The message goes out whole or as a prefix |
| `ClientProtocols.MessageBytes` | client/client_protocol.cpp:398-497 | The encoding of every client message; leaving a room is three bytes |
| `ClientProtocols.StartGameBytes` | client/client_protocol.cpp:439-466 | The buffer built in the loop is the encoding of a start with its races |
| `Wires.ToClient` | client/client_protocol.cpp:384-396 | Server and client back to back, under every chunking on both sides: the client ends with what was sent |
| `Wires.ToServer` | server/client_thread_recv.cpp:9-106 | Client and server back to back under every chunking: the server ends with every message that was sent but the exits, in order, each once and a start twice |
| `MapRoundTrips.EditorAndLoaderUndoEachOther` | server/map/map_config_loader.cpp:97-187 | Loading an exported map gives back every drawn route under its letter: points in order, indices 0..n-1, start, normal and finish, and no other checkpoints |
| `MapRoundTrips.WhatIsLoaded` | server/map/map_config_loader.cpp:7-187 | Point by point and in plain terms: the first route drawn is A, the second B, and so on; every point is where it was drawn, numbered from 0, a start at the beginning, a finish at the end, normal in between; and there is nothing else |
| `MapRoundTrips.LoadedRoutesCanBeFinished` | server/game/city.cpp:54-67 | Crossing a loaded route's checkpoints in order finishes the race at the last one and not before |
| `Cities.AsManyRacesAsRoutes` | server/game/game.cpp:467-486 | A loaded map has as many races as routes |
| `MapRoundTrips.RacesFollowTheDrawing` | server/game/game.cpp:467-486 | The match loaded from a drawn map has one race per route, in the order drawn, each as long as its route |
| `Sorting.OnlyOneOrder` | server/map/map_config_loader.cpp:178-187 | Sorting, whatever it does with ties, leaves a list whose elements all differ in the order in the one order there is |
| `Cities.City.LoadMap` | server/game/city.cpp:24-52 | Every spawn point outside the collision rectangles is kept under its route as often as the map lists it, sorted by car, and no other; routes, NPCs and walls are those of the map |
| `Cities.SpawnsOfARoute` | server/game/city.cpp:22-52 | A route has exactly the map's spawn points of its own that lie strictly outside every rectangle, each as often as listed, by ascending car |
| `Cities.City.GetRouteIds` | server/game/city.cpp:99-109 | Every route id once, in the order of strings |
| `Cities.City.GetSpawnForIndex` | server/game/city.cpp:69-88 | Spawn points are used in turn; a route without any borrows those at the head of the table; with no spawn point at all there is none, where the source follows a null pointer |
| `Cities.EveryRouteHasSpots` | server/game/city.cpp:24-88 | Every route has somewhere to start if and only if some spawn point of the map lies outside every rectangle |
| `Cities.TracksAreUnique` | server/game/game.cpp:467-486 | Loading a map twice gives the same races |
| `Cities.City.InitRaces` | server/game/game.cpp:467-486 | One race per route, in the order of the route ids |
| `Cities.RouteIdsAreUnique` | server/game/city.cpp:99-109 | The order of the route ids is unique |
| `Cities.StringLessIsStrictWeakOrder` | server/game/city.cpp:107-107 | The order of strings is a strict weak order |
| `Cities.StartsDiffer` | server/game/game.cpp:395-403 | When the spawn points of the map are different places, no two players start at the same place as long as there are enough, and nobody starts inside a collision rectangle |
| `MapRoundTrips.RoutesAreGrouped` | server/map/map_config_loader.cpp:120-121 | Grouping by race id gives back the routes |
| `MapRoundTrips.LayerIsRead` | server/map/map_config_loader.cpp:28-122 | An exported layer is read as its route |
| `EditorMenus.OnSummit` | editor/editor_menu.cpp:277-388 | The loops append one layer per route and count the ids on; nothing is exported if and only if a route has fewer than two points or the base map lacks layers or counters |
| `EditorMenus.AddLayer` | editor/editor_menu.cpp:319-384 | The layer of one route, object ids counted on |
| `MapConfigLoaders.LoadFromYaml` | server/map/map_config_loader.cpp:7-187 | On any tree: the checkpoints of all checkpoint layers, by race, sorted by index; nothing if a value cannot be read |
| `MapConfigLoaders.LoadLayer` | server/map/map_config_loader.cpp:28-122 | The checkpoints of one layer in their order |
| `MapConfigLoaders.SortAll` | server/map/map_config_loader.cpp:178-187 | Every race's list becomes a sorted permutation of itself |

## Left out

- Rounding of floating point: match time is counted in ticks, balances, car figures and the scheduler's clock are exact, floats on the wire are their 32 bits.
- The casts of times to whole seconds and of positions to 8 bits in the result messages.
- Physics: steering, collisions, damage amounts, where bodies move, and the contact listener; the model lets any crossing, any health and any movement arrive.  Masses, shapes and angles of bodies, and the places of walls, are not part of a body here.
- Move inputs inside a match, the coordinates and distances of snapshots, checkpoint and damage events in snapshots, usernames inside a match.  `SnapshotTicks` takes the distances as they come, and its entries are not part of the broadcasts of a run.
- Games.Game.ApplyCheat: does not model the teleport and infinite-life cheats, because physics being free already allows their effects.
- Games.Game.StartCurrentRace: requires a spawn point for the route when there are players, because without any the source reads through a null pointer; `EveryRouteHasSpots` says which maps have one. `StartRoomGame` and `StartTwice` require it exactly when there is a race at the index and somebody in the room, and the loop of the match requires it of the map.
- Markets.MarketPhase.ConsumePendingMarketInit: gives all the balances in one announcement, where the source sends one improvement message per player and none when there is nobody; which player has which balance is the same.
- Which NPC drives which model, and the cars of NPCs beyond their bodies.
- The 32-bit overflow of the scheduler's iteration count.
- Threads and locks: a tick, a lobby handler and a queue operation between waits are atomic steps, as the locks make them; a start is one step too, though it takes the lock of the match twice, because in between the match is in the lobby, where a tick does nothing; reserving a connection id and adding the pending connection are one step.
- A player leaving while a tick is under way: departures happen between ticks.
- Rooms and their client lists are values inside the room table, not objects, so aliasing of rooms is not modelled; the order of the binding table is left open, as it is in the source.
- The rooms and players messages that the lobby sends after each step: their contents are modelled by `ListRoomsWithCounts` and `PlayersList`, their sending is not.
- MonitorLobbies.RoomManager.StartRoomGame: does not model loading the map and telling the room's clients, because the objects of the lobby hold player tables and not games; the two sides are joined on values by `Servers`, where a start does both.
- MonitorLobbies.MonitorLobby.HandleStartGame: does not model the match's side of the start either, for the same reason.
- Races.Race.SnapshotTicks: leaves out the coordinates, health, speed, checkpoint and distance fields of the entries, because they are copied or come from physics; who is shown and where it is placed is stated.
- Games.Result.BuildPlayerResultCurrent: leaves out usernames and the casts to whole seconds and 8-bit positions.
- Games.Result.BuildTotalResults: leaves out usernames and the casts, and its entries go by id.
- The actions of a tick are free in `Servers`: they are not tied to what the lobby has put into the room's queue.
- MonitorLobbies.MonitorLobby.Accept: does not model the list of rooms that the newcomer is sent; `ListRoomsWithCounts` is that list.
- MonitorLobbies.RoomManager.SkipUsedIds: requires that some id is free, because otherwise the loop does not end; `SearchEndsExactly` says when it ends.
- MonitorLobbies.RoomManager.CreateRoom: requires that the search for an id ends, because a loop that does not end has no result; `SearchEndsExactly` says when it ends.
- What the game loop takes out of a room's queue: the queue of the model is all that was ever put in.
- Shutting the lobby down (`stop_all_rooms`, `clear_all`); names and damping of cars.
- Streams that end in the middle of a message: the parsers ignore the result of `recvall`, and the parser methods require a whole message.
- `send_nitro` and `send_rooms_default`: no thread calls them and the client has no entry for their code.
- Truncation of more than 255 improvements is modelled in the encoder; the round trip is stated for at most 255.
- MapConfigLoaders.LoadFromYaml: does not model the collision, spawn and NPC layers beyond the positions their objects must have, because they only fill further lists; a city is loaded from any such lists.
- MapConfigLoaders.LoadLayer: leaves the same layers out.
- YAML text: maps are trees whose scalars have one type, so reading a number as text is not modelled; a `layers`, `objects` or `properties` node that is not a list counts as empty.
- EditorMenus.OnSummit: does not model the choice of file name and writing the file, because they do not change the tree.
- Qt screens, SDL, audio, Box2D, socket set-up, logging and the command line.
