# SnowBrawl server and client: verification model

A Dafny model of the authoritative game server of SnowBrawl (a multiplayer
snowball fight on Deno and WebSockets), of its kill database, and of the parts
of the browser client that keep a replica of the players, place scenery and
draw seeded random numbers. `dafny verify dfyconfig.toml` checks the project.

## How the server is modelled

JavaScript runs one synchronous segment at a time, so a run of the server is a
sequence of segments cut at `await`. `GameWorld.dfy` holds everything the
segments share in one value, `World`: the clock, the player table, the
connected clients, the event stream, the seen shots, the kill ledger, the bots,
and the handlers that are suspended at an `await`, with the variables they will
use when they resume. An `Action` names the next segment together with what the
outside supplies: the message, the stream of random numbers that a bot draws,
the values of `hypot` and `sqrt` (constrained by their defining equations), the
terrain. `Step` is the effect of a segment, and `Runs`/`After` are arbitrary
finite interleavings.

`Server.dfy` is the same server as the imperative program it is: a class whose
methods update its tables in place, one method per segment, each proved to do
exactly what `Step` says; `Serve` is its event loop, so every result about runs
is a result about the program. The event stream, the shot filter, the kill store,
the state outbox, the rate gate and the client replica are classes of their own
in the same style.

`Evolution.dfy` analyses all segments once, from the point of view of one
player: nothing happens to the player's life, or it is hit, dies, or comes
back. The results about whole runs are proved from that relation.

| file | content |
|---|---|
| `OrderedMap.dfy`, `Protocol.dfy` | insertion-ordered maps; wire types and constants |
| `Ballistics.dfy`, `BotMotion.dfy` | flight, victim search, no tunnelling; how bots walk and aim |
| `EventLog.dfy`, `ShotFilter.dfy`, `KillLedger.dfy` | event window; shot deduplication; kill tables |
| `GameWorld.dfy`, `Server.dfy` | the step system; the program that refines it |
| `Invariants.dfy`, `Evolution.dfy` | what every step keeps; what a step does to one player |
| `LifeCycle.dfy`, `EventSourcing.dfy`, `Bookkeeping.dfy` | results over whole runs |
| `Messages.dfy`, `Throws.dfy`, `KillCredit.dfy` | what messages do and who looks how; who is struck by which snowball; whose kill it is |
| `BotLife.dfy`, `BotAgreement.dfy`, `BotTurns.dfy` | the bots in the player table and in the event stream; a bot's turn and its rate of fire |
| `Races.dfy` | runs in which two laws fail |
| `RateLimit.dfy`, `Outbox.dfy` | per-connection limits; coalesced state broadcast |
| `ClientReplica.dfy`, `Scatter.dfy`, `SeededRng.dfy` | client replica, scenery placement, mulberry32 |

## Main results

* **Event sourcing.** Under every interleaving and with no timing assumption,
  replaying the whole history with `applyEventToCache` from the initial bots
  gives exactly the connected clients and the bots as members, and for every
  client the same hit points and, unless a death of that client is suspended,
  the same respawn time. For a bot the same holds as long as it is not removed
  and every write-back at the end of its turns finds its vital signs as the turn
  did, and a write-back keeps the agreement if and only if it does
  (`WriteBackIsExact`). It does whenever nothing hits the bot in the middle of
  its own turn, in particular when ticks are not interrupted, however long they
  take. `WriteBackLosesDamage`: from every initial state some run violates it.
* **Life cycle.** If broadcasts resume within `respawnMs`, no respawn comes
  early, no survivable hit falls on a corpse, deaths are `respawnMs` apart, and
  a corpse keeps place, hit points and respawn time until it is due.
* **Damage.** Hit points are 100 less 10 per hit since the latest join or
  respawn. Every segment keeps this if and only if it does not announce the
  death of a player who is alive, that is, who came back while the death was
  suspended (`FormulaIffTimely`); prompt broadcasts exclude that, and
  `LateDeathBreaksFormula` gives a run from every initial state that does it.
* **Shots.** In every run a shot that resolves strikes whom the snowball in the
  event stream meets first, or nobody if it meets nobody; the snowball points
  along the vector of the client's message, or at the nearest living human. The
  sampled search misses nobody within a clearance of the line of flight, and the
  clearance is sharp. A level shot reaches exactly 9.65 units.
* **Kill credit.** In every run a death follows a lethal hit of the same attacker,
  victim and shot, names the victim as the table did at the hit and the attacker
  as the table does now, and client kills, only they, are recorded with those
  names. The time leaderboard equals a count of death events.
* **Player table.** In every run a connected client looks as its own latest
  adopted messages say; nothing else has a say.
* **Bots.** No bot is ever collected as idle, whatever runs in the middle of a
  tick and even if ticks overlap, as long as the last finished tick began at most
  `gap` ms ago, overlapping ticks began at most `slack` ms apart, and `gap` plus
  `slack` is at most 2001. Bots never leave the safe zone, because their spawn
  points and targets are drawn inside it, whatever numbers are drawn. A bot throws
  at most once in 10 s unless a tick visits it while its own turn is suspended;
  overlapping ticks do that, and `OverlapThrowsTwice` shows the double throw.
* **Books.** Shots are deduplicated exactly, every accepted shot is thrown unless
  its shooter is gone, and its events add up; the kill
  tables equal counts over the event history; the event window is a suffix of it.
* **Outbox.** After every flush with a client connected, the client knows from
  the batches what it would know from every update one by one.
* **Client.** After a snapshot the remote players are at any time the snapshot's,
  plus those who joined or moved since, less those who left. List and table of player models stay the same set if and only if
  the own id is not in the table at a welcome. A reconnecting client violates
  this: the join event of its new id reaches it before the welcome while its old
  id is still set, although client_src/network.js:232 means to prevent it.

Assumptions, where stated: the clock never goes back and `Date.now()` is read
once per segment; ids and shot ids drawn by `crypto.randomUUID` are new;
`Math.random` lies in [0, 1); the life-cycle results assume prompt broadcasts
(`PromptRuns`), the result about collection regular ticks (`PunctualRuns`, or
`SerialRuns` for ticks one after the other), the result about bots in the event
stream that a bot is spared in the middle of its turns (`SparedRuns`, or
`AtomicRuns` for uninterrupted ticks), the rate of fire that no tick visits a bot
during a suspended turn of its own (`OneTurnRuns`, which `SerialRuns` implies). The bots' terrain height is not assumed
positive: the comment at bot.ts:20 promises it, the code does not.

## Model

| member | source | states |
|---|---|---|
| `OrderedMap.WithoutKeepsOrder` | state.ts:55-57 | deleting a key keeps the order of the others |
| `OrderedMap.ReassignedComesLast` | state.ts:48-57 | a key that was deleted and is set again comes last; setting a present key keeps its place |
| `Ballistics.NormIsUnitOrZero` | utils.ts:107-110 | normalising gives a unit vector in the same direction, and keeps the zero vector |
| `Ballistics.NormIsShort` | game.ts:170 | the direction of a shot is never longer than a unit vector |
| `Ballistics.FreeFall` | utils.ts:152-158 | a snowball starts at its origin, moves evenly along the ground, and its height has the second difference of free fall: -0.05 per sample |
| `Ballistics.HitVolume` | utils.ts:160-169 | a ball strikes exactly within 0.9 of the player's axis and between the feet and 2.2 above them |
| `Ballistics.LevelRange` | game.ts:182-204 | a level shot from 1.3 above level ground strikes nobody farther than 9.65 away |
| `Ballistics.LevelRangeIsExact` | game.ts:182-204 | along an axis it strikes a player at distance d if and only if d is at most 9.65 |
| `Ballistics.FirstHitIsFirst` | game.ts:195-203 | the sample loop stops at the first hitting sample; if it finds none, every hitting sample comes after one below the ground |
| `Ballistics.SearchSamples` | game.ts:195-203 | the inner loop computes the first hit of one player |
| `Ballistics.EarliestIsMinimal` | game.ts:200 | the comparison of times keeps the smallest, the first of equals |
| `Ballistics.FindVictimIsEarliest` | game.ts:189-206 | the victim is the eligible player reached at the earliest sample, ties to the first in table order; nobody exactly when nobody is reached |
| `Ballistics.SearchVictim` | bot.ts:227-242 | the nested loops, which compare times, compute that victim; humans and bots share them |
| `Ballistics.AboveGroundBetween` | game.ts:197-198 | from above the ground, all samples before one above the ground are above the ground, so the loop breaks off at most once |
| `Ballistics.BreakEqualsSkip` | game.ts:198 | from above the ground, breaking off below the ground equals skipping such samples; from below the ground nothing is ever hit |
| `Ballistics.DistanceFromClosest` | utils.ts:152-169 | squared horizontal distance around the closest approach |
| `Ballistics.NearestSampleHits` | utils.ts:160-169 | the sample nearest to a closest approach within the clearance hits |
| `Ballistics.NoTunnelling` | game.ts:184-204 | an eligible player whose closest approach is within the clearance and at the right height is found, and the shot has a victim no later |
| `Ballistics.ClearanceIsSharp` | config.ts:17-22 | for every larger distance some unit shot passes between two samples and hits nobody |
| `EventLog.DropOldIsFilter` | state.ts:15-20 | pruning from the front of the time-ordered window removes exactly the old events |
| `EventLog.AppendKeepsLog` | state.ts:110-117 | after an append the window is the numbered suffix of history no older than EVENT_MS, ending in the new event |
| `EventLog.WindowIsContiguous` | state.ts:8-13 | events[i].seq = latestSeq - length + 1 + i |
| `EventLog.EventStream.constructor` | state.ts:8-13 | the stream starts empty |
| `EventLog.EventStream.PruneEvents` | state.ts:15-20 | the shift loop drops the old prefix |
| `EventLog.EventStream.Push` | state.ts:110-115 | numbering, appending and pruning of one event |
| `ShotFilter.RefusedIffRecent` | game.ts:23-29 | an id is refused if and only if it was accepted less than 10 s ago |
| `ShotFilter.AcceptKeepsBook` | game.ts:20-29 | acceptances of one id stay at least 10 s apart |
| `ShotFilter.ExpireKeepsBook` | game.ts:31-36 | the collector forgets nothing that still matters |
| `ShotFilter.CollectionIsExact` | game.ts:31-36 | after a collection the table holds exactly the ids accepted less than 10 s ago |
| `ShotFilter.SeenShots.constructor` | game.ts:20 | no shot is seen at the start |
| `ShotFilter.SeenShots.SeenShotBefore` | game.ts:23-29 | the lookup refuses or records, nothing else |
| `ShotFilter.SeenShots.CollectGarbage` | game.ts:31-36 | the loop removes exactly the expired entries |
| `KillLedger.UpsertAddsToTotals` | storage.ts:59-67 | an upsert adds its kills and deaths to the totals over all names |
| `KillLedger.RecordKeepsLedger` | storage.ts:102-123 | statistics equal counts over all records, per name and in total, also when attacker and victim share a name; last_seen and last_player_id are those of the latest mention |
| `KillLedger.CleanupKeepsLedger` | storage.ts:178-183 | after any cleanups the kills table is the records from the latest cutoff on |
| `KillLedger.KeepIsFilter` | storage.ts:97-99 | the cleanup keeps every row from the cutoff on, as often as it occurs, and no other |
| `KillLedger.KeepSplits` | storage.ts:97-99 | and in their order |
| `KillLedger.KillsSinceIsCount` | storage.ts:85-95 | the count for a name is the number of rows with that attacker's name and a timestamp after the start of the window |
| `KillLedger.WholeWindow` | storage.ts:85-95 | a window that begins before all rows counts all kills of the name |
| `KillLedger.LeaderboardIsExact` | storage.ts:168-176 | for windows up to 720 hours the count over the table equals the count over all records ever |
| `KillLedger.BoardIsExact` | storage.ts:85-95 | so the boards of the query, ranked by count and cut at the limit, are those over all records ever |
| `KillLedger.KillStore.constructor` | storage.ts:7-31 | a new database satisfies the ledger invariant |
| `KillLedger.KillStore.UpsertStats` | storage.ts:59-67 | insert or add on conflict |
| `KillLedger.KillStore.RecordKill` | storage.ts:102-123 | one row, one kill for the attacker's name, one death for the victim's |
| `KillLedger.KillStore.CleanupOldKills` | storage.ts:178-183 | deletes the rows older than 30 days and returns how many |
| `BotMotion.SpawnIsFirstClear` | bot.ts:85-110 | for every random stream the spawn point is the first candidate away from the tree, else the 50th; within 142.5, so the clamp is idle |
| `BotMotion.SpawnReaches` | bot.ts:85-110 | every place of the spawn square away from the tree is the spawn point of some random stream |
| `BotMotion.RandomSpawnPos` | bot.ts:85-110 | the attempts loop computes it |
| `BotMotion.MoveTargetIsSafe` | bot.ts:131-132 | every target, from wherever, is in the safe zone |
| `BotMotion.MoveTargetIsNearby` | bot.ts:149-172 | from inside the zone the target is the first of 20 candidates away from the tree, else the 20th, and at most 30 away |
| `BotMotion.TargetReaches` | bot.ts:149-172 | every place of the zone 10 to 30 away and away from the tree is the target of some random stream |
| `BotMotion.HomewardApproaches` | bot.ts:124-132 | from outside the zone the first candidate is nearer to the centre in both coordinates |
| `BotMotion.HomewardIsDrawn` | bot.ts:124-147 | from outside the zone the target is 40 to 70 units towards the centre, or in another direction if that is closer than 25 to it, clamped to the zone |
| `BotMotion.MoveHomeward` | bot.ts:124-147 | the branch for bots outside the zone |
| `BotMotion.RandomMoveTarget` | bot.ts:113-172 | both branches and the attempts loop compute the target |
| `BotMotion.WalkOneTick` | bot.ts:333-371 | retargeting and one stride on the bot's fields |
| `BotMotion.WalkedIsConvex` | bot.ts:346-361 | a stride is a convex step and the map clamp never changes it |
| `BotMotion.AdvanceStaysAndApproaches` | bot.ts:339-371 | a walking bot stays in the safe zone and comes exactly 0.15 closer; an arriving bot stands still |
| `BotMotion.WalkIsStraight` | bot.ts:339-371 | at 3 units per second straight to the target, on the ground, facing it; within half a unit it stops and drops the target |
| `BotMotion.TargetsAreFresh` | bot.ts:333-336 | a bot walks to a target at most 3 s old, the old one as long as that is fresh |
| `BotMotion.AdvanceN` | bot.ts:339-371 | after n ticks towards a fixed target the distance has dropped by exactly 0.15 n |
| `BotMotion.NearestIsMinimal` | bot.ts:175-197 | the nearest living human, the first of equals |
| `BotMotion.FindNearestPlayer` | bot.ts:175-197 | the loop finds it, and nobody exactly when there is none |
| `Invariants.InitialIsSane` | bot.ts:44-82 | the server after initBots satisfies the invariant |
| `Invariants.EmitKeepsSane` | state.ts:48-117 | appending an event keeps the invariant |
| `Invariants.StateKeepsSane` | game.ts:78-159 | so does a state report, frozen, reviving or moving |
| `Invariants.SnowballKeepsSane` | game.ts:161-180 | so does firing |
| `Invariants.FlightKeepsSane` | game.ts:182-234 | so does resolving a shot |
| `Invariants.DoomKeepsSane` | game.ts:236-257 | so does announcing a death |
| `Invariants.VisitKeepsSane` | bot.ts:297-398 | so does a bot's turn |
| `Invariants.SettleKeepsSane` | bot.ts:389-398 | so does writing back a snapshot read before an await |
| `Invariants.StepKeepsSane` | state.ts:110-134 | every segment keeps the invariant |
| `Invariants.RunKeepsSane` | ws.ts:42-151 | so does every interleaving |
| `Invariants.CacheInvariant` | game.ts:78-159 | in every reachable state hit points are a multiple of 10 in [0, 100], zero exactly while a respawn time is set, everybody is within 195, every connected client has a snapshot |
| `Evolution.HitEvolves` | game.ts:208-234 | a hit takes ten points, sets the respawn time and suspends a death exactly if lethal, logs one hit event, and leaves everybody else alone |
| `Evolution.DeathEvolves` | game.ts:236-257 | a resumed death sets zero hit points and its respawn time, logs one death event, and leaves everybody else alone |
| `Evolution.StateRevivesEvolves` | game.ts:99-133 | a due respawn restores 100 points at the spawn point and logs one respawn event |
| `Evolution.StateUnharmed` | game.ts:78-97 | any other state report changes nobody's hit points or respawn time and moves no corpse |
| `Evolution.BotRevivesEvolves` | bot.ts:301-327 | the same for a bot that is due |
| `Evolution.BotActsUnharmed` | bot.ts:332-398 | a living bot's turn harms nobody by itself |
| `Evolution.StepEvolves` | state.ts:48-122 | every segment leaves a followed player alone, hits it, kills it or revives it |
| `Evolution.StepLogs` | state.ts:110-122 | every segment appends at most one event, of the kind its handler allows |
| `Evolution.StepFrame` | ws.ts:68-86 | who is connected changes only by hello and close; the clock only advances |
| `Evolution.JoinBegins` | ws.ts:68-86 | a newcomer is healthy, and no event or suspended death concerns it |
| `Messages.HelloEnters` | ws.ts:68-86 | a hello enters a healthy player at the spawn point under its name and announces exactly that player |
| `Messages.CloseRemoves` | ws.ts:144-150 | a close removes that player and announces it |
| `Messages.RenameRenames` | game.ts:59-70 | raw name for the connection; the clamped name, if not empty, for the player and the event |
| `Messages.ChatIsAnnounced` | game.ts:72-76 | text that is not empty is announced under the connection's name |
| `Messages.PingMarks` | ws.ts:112-119 | a ping marks a known player as seen, nothing else |
| `Messages.ScanIsExact` | state.ts:125-134 | a player stays if and only if connected or seen in the last 5 s |
| `Messages.MovedApplied` | state.ts:58-76 | a state event shows its player as it says and keeps everything else |
| `Messages.StateReport` | game.ts:78-148 | a report is ignored if not finite, beyond 195, beyond 5000 in height or from a corpse not yet due; else it revives a due player at the spawn point with an event, or is adopted as it is, keeping hit points; nobody else is touched |
| `Messages.LatestMessagesDecide` | game.ts:78-148 | in every run a connected client looks in the table as its own latest adopted messages say |
| `Throws.ClientThrows` | game.ts:161-180 | a message throws one snowball along its vector from 1.3 above the client, or none if the vector is not finite, the id was seen, or the client is gone |
| `Throws.BotThrows` | bot.ts:373-387 | a living bot throws exactly if its last shot is over 10 s old and a human lives, at 1.0 above the feet of the nearest |
| `Throws.RunStaysAccounted` | game.ts:173-236 | in every run each suspended shot has its snowball in the history, with the same id, owner, origin, direction and speed 25, and each suspended death its lethal hit |
| `Throws.FirstIsMet` | game.ts:189-206 | whom nobody precedes, by sample and then in table order, is the one the snowball meets first |
| `Throws.AnnouncedShotsStrike` | game.ts:182-234 | in every run a resolving shot takes ten points from the player whom the announced snowball meets first and logs that hit, or does nothing if it meets nobody |
| `Throws.RunsDoNotTunnel` | game.ts:182-234 | in every run a shot that resolves while an eligible player is within the clearance of the announced flight appends a hit |
| `KillCredit.ClientDeath` | game.ts:236-257 | the death of a client's victim names the client as the table does, or "Unknown", and records one row that says the same |
| `KillCredit.BotDeath` | bot.ts:277-288 | the death of a bot's victim carries the bot's own name and records nothing |
| `KillCredit.KillCreditIsDue` | game.ts:227-257 | in every run a death follows a lethal hit event of the same attacker, victim and shot, and names the victim as the table did at that hit and the attacker as above |
| `KillCredit.LeaderboardCountsDeaths` | storage.ts:85-95 | in every run the count for a name and a window of up to 720 hours is the number of death events since then that clients of that name caused |
| `KillCredit.LastSeenAgreement` | storage.ts:59-67 | in every run a name's statistics carry time and player id of the latest client kill that mentions it |
| `LifeCycle.DamageConservation` | game.ts:215-234 | in every run a client's hit points are 100 less 10 per hit since its latest join or respawn, or zero after a death event |
| `LifeCycle.FormulaIffTimely` | game.ts:236-257 | a segment keeps the plain formula if and only if it does not announce the death of a living player |
| `LifeCycle.FormulaHoldsWhileTimely` | game.ts:93-133 | the formula holds in every run without such an announcement, and the first one breaks it |
| `LifeCycle.TimelyRunsAreRuns` | game.ts:227-236 | a run without such an announcement is a run of the server |
| `LifeCycle.PromptRunsAreTimely` | game.ts:96-133 | prompt broadcasts exclude it, because a living player has no suspended death |
| `LifeCycle.DamageIsHitCount` | game.ts:182-234 | with prompt broadcasts the plain formula always holds |
| `LifeCycle.PromptRunsAreRuns` | game.ts:227-236 | a run whose suspended deaths resume within respawnMs is a run of the server |
| `LifeCycle.LifeCycleSafety` | game.ts:93-133 | no respawn before it is due, no survivable hit between death and respawn, deaths at least respawnMs apart |
| `LifeCycle.FrozenUntilRespawn` | game.ts:96-97 | from any tied state a corpse keeps place, hit points and respawn time until due |
| `LifeCycle.CorpseIsFrozen` | game.ts:193 | the same at any moment of any prompt run |
| `EventSourcing.StepKeepsMembers` | state.ts:49-57 | join and leave events alone decide the members of the replay |
| `EventSourcing.StepKeepsAgreement` | state.ts:77-105 | every segment keeps the replay in agreement on a client |
| `EventSourcing.EventSourcingAgreement` | state.ts:48-122 | in every run the replayed history has exactly the clients and bots as members and gives every client its hit points and, with no suspended death, its respawn time |
| `Bookkeeping.RunKeepsBooks` | state.ts:8-20 | every run keeps the log, the shot filter and the ledger consistent with their histories |
| `Bookkeeping.EventWindow` | state.ts:110-122 | in every run the window is the contiguous numbered suffix of history that holds exactly the events at most 120 s older than the newest |
| `Bookkeeping.ShotConservation` | game.ts:161-257 | in every run, per shot id: accepted shots equal client snowballs plus shots whose shooter had no snapshot, hits plus flights do not exceed snowballs, deaths plus suspended deaths equal lethal hits |
| `Bookkeeping.ShotDeduplication` | game.ts:20-36 | in every run and for any collector schedule, refusal means acceptance within 10 s, and client snowball events of one id are 10 s apart |
| `Bookkeeping.KillLedgerAgreement` | storage.ts:102-123 | over every run, kills and deaths per name and in total grow by the death events with a human attacker |
| `BotLife.FreshIsNotIdle` | state.ts:125-134 | a bot refreshed since the last tick, or a corpse not yet due then, is not idle if gap plus slack is at most 2001 |
| `BotLife.StepStaysAlive` | bot.ts:294-330 | every segment of whatever handler keeps every bot cached and fresh |
| `BotLife.BotsAreNeverCollected` | state.ts:125-134 | in every run with regular ticks, interrupted or overlapping, every bot stays in the player table, dead or alive |
| `BotLife.SerialRunsArePunctual` | bot.ts:413-415 | ticks one after the other are regular with slack 0, whatever interrupts them |
| `BotLife.SerialTicksCollectNobody` | state.ts:125-134 | so they never lose a bot |
| `BotAgreement.WriteBackKeepsAgreementIff` | bot.ts:389-398 | a write-back keeps the agreement if and only if it restores the hit points that the table has and, with no suspended death, the respawn time |
| `BotAgreement.BotEventSourcing` | bot.ts:256-288 | in every run that does not remove the bot and whose write-backs find it as its turns did, the replay agrees on the bot |
| `BotAgreement.WriteBackIsExact` | bot.ts:389-398 | after every such run, the next write-back keeps the agreement if and only if it is faithful |
| `BotAgreement.SparedRunsAreFollowed` | bot.ts:332-398 | if nothing hits, kills or revives a bot in the middle of its own turns, its write-backs find it as its turns did |
| `BotAgreement.SparedBotEventSourcing` | bot.ts:256-288 | so the replay agrees on it |
| `BotAgreement.PunctualBotEventSourcing` | bot.ts:256-288 | so with regular ticks, interrupted or overlapping, the replay agrees on every bot that nothing hits in the middle of its own turns |
| `BotAgreement.AtomicRunsAreSerial` | bot.ts:413-415 | uninterrupted ticks are ticks one after the other |
| `BotAgreement.AtomicRunsSpareBots` | bot.ts:200-288 | uninterrupted ticks spare every bot, which is never the victim of its own shot, while the clock runs on |
| `BotAgreement.AtomicBotEventSourcing` | bot.ts:256-288 | so with uninterrupted ticks the replay agrees on every bot |
| `BotAgreement.BotConfinement` | bot.ts:339-371 | in every run every bot and its target stay in the safe zone; its next target, whatever is drawn, comes from the branch for bots inside it |
| `BotTurns.PassedOver` | bot.ts:298-330 | a bot that is not in the table, or dead and not due, is skipped |
| `BotTurns.DueBotReturns` | bot.ts:301-327 | a due bot comes back with 100 points at a drawn spawn point, standing still, without a target, with one event |
| `BotTurns.LivingTurn` | bot.ts:373-398 | a turn without a throw shows the new pose in the table with the time of the tick; one with a throw only moves the bot and is suspended with the snapshot it began with |
| `BotTurns.VisitWalks` | bot.ts:333-371 | in its turn a living bot goes 0.15 straight towards its target, or a new one if the old is gone or over 3 s old; within half a unit it stays and drops it |
| `BotTurns.TurnEnds` | bot.ts:290-398 | the end of a suspended turn shows the snapshot the turn began with in the bot's present pose |
| `BotTurns.BotsFireSlowly` | bot.ts:373-387 | in every run that does not visit the bot during a suspended turn of its own, its throws are more than 10 s apart |
| `BotTurns.SerialBotsFireSlowly` | bot.ts:413-415 | so in every run whose ticks do not overlap |
| `BotTurns.OverlapThrowsTwice` | bot.ts:373-387 | two overlapping ticks that are about to throw with the same bot both do, at the same time |
| `Races.LateDeathBreaksFormula` | game.ts:227-256 | from every initial state a run ends with a player without hit points who was not hit since it came back |
| `Races.WriteBackLosesDamage` | bot.ts:389-398 | from every initial state a run ends with a bot whose hit the stream has and the table has not |
| `Server.GameServer.constructor` | state.ts:7-35 | an empty server on an existing database |
| `Server.GameServer.EnterBot` | bot.ts:46-77 | one more bot is entered under its name, healthy, at a drawn spawn point |
| `Server.GameServer.InitBots` | bot.ts:44-82 | each bot is entered under its name, healthy, at a drawn spawn point, with its first shot 10 to 20 s away, without events; the server is in an initial state |
| `Server.GameServer.ApplyEventToCache` | state.ts:49-106 | the in-place update is the event's effect |
| `Server.GameServer.AppendEvent` | state.ts:110-119 | number, log, prune and apply one event |
| `Server.GameServer.ScanIdlePlayers` | state.ts:125-134 | the scan deletes exactly the offline players idle for more than 5 s |
| `Server.GameServer.OnHello` | ws.ts:68-86 | registration and join |
| `Server.GameServer.OnClose` | ws.ts:144-150 | deregistration and leave |
| `Server.GameServer.OnPing` | ws.ts:112-119 | a ping refreshes an existing snapshot |
| `Server.GameServer.OnRename` | game.ts:59-70 | raw name on the connection, clamped name in the table and the event |
| `Server.GameServer.OnChat` | game.ts:72-76 | an empty text is dropped |
| `Server.GameServer.OnState` | game.ts:78-148 | rejection, freeze, respawn and move |
| `Server.GameServer.OnSnowball` | game.ts:161-180 | deduplication, missing shooter, snowball event |
| `Server.GameServer.DamageVictim` | game.ts:215-234 | damage, respawn time and hit event |
| `Server.GameServer.StrikeVictim` | game.ts:215-236 | a lethal hit leaves a death to announce |
| `Server.GameServer.MissShot` | bot.ts:244-247 | without a victim the handler ends; a bot notes the time |
| `Server.GameServer.ResumeFlight` | game.ts:182-234 | search and hit |
| `Server.GameServer.ResumeDoom` | game.ts:236-257 | kill record for human attackers and death event |
| `Server.GameServer.StartBots` | bot.ts:294-297 | a tick begins with all bots to visit |
| `Server.GameServer.MoveBot` | bot.ts:332-371 | walking moves the bot and its cached snapshot together |
| `Server.GameServer.ThrowBotSnowball` | bot.ts:200-218 | aim and snowball event |
| `Server.GameServer.ReviveBot` | bot.ts:301-327 | a due bot comes back |
| `Server.GameServer.WriteBackBot` | bot.ts:389-398 | the old snapshot with the new pose |
| `Server.GameServer.ActBot` | bot.ts:332-398 | a living bot's turn up to its first await |
| `Server.GameServer.VisitBot` | bot.ts:297-330 | one iteration of the loop over the bots |
| `Server.GameServer.SettleBot` | bot.ts:290-398 | the rest of a turn after a shot |
| `Server.GameServer.Handle` | ws.ts:42-151 | every segment of the program is the step its action names |
| `Server.GameServer.Dispatch` | ws.ts:42-151 | and keeps the tables consistent with each other and with their histories |
| `Server.GameServer.Serve` | ws.ts:42-151 | the event loop, on any schedule, ends where the run of the step system does |
| `RateLimit.RateLimitBound` | state.ts:153-160 | any closed interval of windowMs contains at most 2 * maxMsgs admitted messages |
| `RateLimit.RateLimitIsSharp` | config.ts:6 | that many are admitted within one millisecond |
| `RateLimit.RateLimitAdmits` | state.ts:153-160 | a message is let through if fewer than 1200 came in the 10 s before it |
| `RateLimit.StateGateIsExact` | state.ts:163-168 | a state message is handled if and only if the last handled one is at least 38 ms old |
| `RateLimit.StateFrequencyBound` | state.ts:163-168 | n handled state messages span at least 37.5 (n - 1) ms, on a millisecond clock 38 (n - 1) |
| `RateLimit.RateGate.constructor` | ws.ts:70-78 | a new connection has an empty bucket |
| `RateLimit.RateGate.RateLimitOk` | state.ts:153-160 | bucket restart, count and admission |
| `RateLimit.RateGate.StateFreqOk` | state.ts:163-168 | admission and time of the last state message |
| `Outbox.FlushIsLossless` | state.ts:220-233 | flushing moves the pending states into one batch without loss |
| `Outbox.CoalescingIsLossless` | state.ts:181-233 | batches give a client the same states as every update one by one, at every moment up to what is pending; no batch names a player twice |
| `Outbox.FlushSends` | state.ts:220-233 | a flush with a client sends each pending state once and leaves nothing pending; without clients it does nothing |
| `Outbox.FlushDelivers` | state.ts:220-233 | after every flush with a client, the batches give exactly the states of every update one by one |
| `Outbox.StateOutbox.constructor` | state.ts:181 | nothing is pending at the start |
| `Outbox.StateOutbox.EnqueuePendingState` | state.ts:183-185 | the latest state of a player replaces its older one |
| `Outbox.StateOutbox.FlushOnce` | state.ts:223-231 | nothing is sent or dropped without clients |
| `ClientReplica.SnapshotRepairs` | client_src/network.js:191-227 | after a snapshot the remote ids are the snapshot's ids without the own |
| `ClientReplica.SnapshotOwn` | client_src/network.js:191-223 | after a snapshot there is a local model if and only if there was one or the snapshot names the own id |
| `ClientReplica.EventMembers` | client_src/network.js:130-252 | a join adds its player, a leave removes it, a states message adds all others it names |
| `ClientReplica.WelcomeMembers` | client_src/network.js:110-126 | a welcome removes the old local player with another id, nobody else, and sets the own id |
| `ClientReplica.ReplicaFollowsServer` | client_src/network.js:191-252 | after a snapshot the remote players are at any time the snapshot's plus the joined and moved less the left |
| `ClientReplica.EarlySnapshotWaits` | client_src/network.js:110-129 | a snapshot before the first welcome waits for it: both orders end the same |
| `ClientReplica.OnlyLocalIsNotRemote` | client_src/network.js:191-249 | over every message sequence with clean welcomes, exactly the models other than the local one are remote |
| `ClientReplica.ReceiveKeepsGood` | client_src/network.js:110-147 | every message keeps list and table the same duplicate-free set, a welcome if it is clean |
| `ClientReplica.ReplicaStaysConsistent` | client_src/network.js:110-147 | so does every message sequence |
| `ClientReplica.WelcomeConditionIsExact` | client_src/network.js:110-126 | after welcome and snapshot list and table agree if and only if the own id was not in the table as somebody else |
| `ClientReplica.ReconnectLeavesOrphan` | client_src/network.js:231-249 | join, welcome and snapshot in the server's order are safe exactly on a first connection |
| `ClientReplica.NetworkManager.constructor` | client_src/utils.js:191-198 | a client starts without players |
| `ClientReplica.NetworkManager.AddRemotePlayer` | client_src/network.js:213-215 | list and table both get the model |
| `ClientReplica.NetworkManager.CreateLocalPlayer` | client_src/network.js:339-347 | the same for the local player |
| `ClientReplica.NetworkManager.RemovePlayer` | client_src/network.js:348-356 | both lose it |
| `ClientReplica.NetworkManager.OnStates` | client_src/network.js:130-145 | unknown remote players are added |
| `ClientReplica.NetworkManager.OnSnapshot` | client_src/network.js:191-223 | entries are added, strays removed |
| `ClientReplica.NetworkManager.RemoveStrays` | client_src/network.js:224-226 | the second loop of the snapshot |
| `ClientReplica.NetworkManager.OnWelcome` | client_src/network.js:110-126 | old local player, new id, early snapshot |
| `ClientReplica.NetworkManager.OnMessage` | client_src/network.js:92-158 | dispatch, and consistency kept |
| `Scatter.IsTooClose` | client_src/environment.js:507-523 | the loop decides closeness to the centre or to a placed model |
| `Scatter.FlatGround` | client_src/environment.js:542-553 | the ground is flat enough if and only if the place and its eight neighbours 4 away differ by at most 0.3 |
| `Scatter.AcceptableIsRoomy` | client_src/environment.js:531-559 | a candidate, drawn in the square of half side 180, is acceptable if and only if it is 25 from the centre, 15 from every placed model, and not steep |
| `Scatter.SearchIsFirst` | client_src/environment.js:531-559 | a search takes its first acceptable candidate and fails only if all 50 are unacceptable |
| `Scatter.FindPlace` | client_src/environment.js:531-559 | the attempts loop performs that search and stops within 50 attempts |
| `Scatter.PlaceOne` | client_src/environment.js:527-569 | one instance is placed or skipped |
| `Scatter.InstanceIsPlaced` | client_src/environment.js:527-569 | an instance is placed at its first roomy candidate with the next two draws as rotation and height, and skipped exactly if all 50 are refused |
| `Scatter.SceneIsGood` | client_src/environment.js:525-571 | every scene is separated and every model well placed |
| `Scatter.ScatterModels` | client_src/environment.js:492-572 | for every random stream and terrain: pairwise at least 15 apart, at least 25 from the centre, within the margin, on flat ground, at most two per listed name |
| `SeededRng.Output` | client_src/utils.js:150-152 | every output is in [0, 1) |
| `SeededRng.FirstOutputs` | client_src/utils.js:147-153 | the first three outputs for seed 0 |
| `SeededRng.FullPeriod` | client_src/utils.js:145-149 | two states are equal if and only if the calls are a multiple of 2^32 apart |
| `SeededRng.ReachesEveryState` | client_src/utils.js:145-149 | every 32-bit state occurs within the first 2^32 calls |
| `SeededRng.Rng.constructor` | client_src/utils.js:145-146 | the seed is reduced to 32 bits |
| `SeededRng.Rng.Next` | client_src/utils.js:147-153 | advance and mix |

## Left out

- AES-GCM, base64, JWT, OAuth and UTF-8 repair: done by WebCrypto, the platform and remote services.
- HTTP routing, static files, production build, start scripts, rendering, audio and user interface: plumbing.
- Floating point: positions are reals, times whole milliseconds; a component that is not finite is `None`.
- `hypot`, `sqrt`, `sin`, `cos` and `atan2`: their results are inputs that satisfy the defining equations; a random heading is any unit vector.
- Terrain heights: an arbitrary function on the client, arbitrary values for the bots.
- The fields of client player models other than their identity: nothing in the modelled logic reads them.
- Server.GameServer.DamageVictim: the knockback impulse of the hit event is not modelled; no server code reads it.
- Server.GameServer.OnState: the pending state that the handler enqueues goes to the outbox, which is a model of its own.
- ClientReplica.NetworkManager.OnMessage: only the messages that change who is modelled: welcome, snapshot, states, join and leave.
- Name and chat clamping: the clamped text is an input; a rename stores the raw name on the connection, as the source does.
- The duplicate-name check of ws.ts: switched off by `ALLOW_DUPLICATE_NAMES`.
- Sending: messages to clients are not part of `World`; the outbox is a model of its own because no handler reads it, and the step system admits every message that the rate gates could admit.
- Server.GameServer.ActBot: the velocity object that a bot shares with its snapshot is written at the end of the turn only; no server code reads a velocity.
- Server.GameServer.VisitBot: the loop over the bots may also be interrupted between two bots where the source has no await, which only adds interleavings.
- Ballistics.SearchVictim: the clock is read once for the whole search, not once per player.
- KillLedger.LeaderboardIsExact: the count per name only; `BoardIsExact` adds ranking and limit, with ties in any order.
- Scatter.ScatterModels: the rotation is given as a fraction of a turn.
