# Verification model of the game server plugins

This project models the stateful cores of a Quake Live server tool set, one Dafny module per
component, and proves what each of them is for. Source paths below are relative to the root of the
repository.

| component | modules |
|---|---|
| resync hold scheduler of the demo stream | `HoldModel`, `HoldSteps`, `HoldScheduler`, `HoldFacts`, `HoldLedger`, `HoldChain`, `HoldWitness`, `HoldLiveness`, `HoldPolicy` |
| telemetry POST feeds, items and session | `PostFeed`, `ItemFeed`, `SessionFeed` |
| match clock over pause, restore and thaw | `ClockModel`, `MatchClock`, `ClockLaws` |
| restoring from a recording | `RespawnScan`, `ItemRespawn`, `ClockText` |
| HUD panel cache | `HudFit`, `HudCache` |
| frame gap histogram | `FrameStats` |
| server.cfg rewriter and the stream's enable, disable and save | `ServerCfg`, `StreamReconcile` |
| game modes | `GunGame`, `TowerDefence` |
| shared definitions | `Common` (options, white space, sums over sets), `SlotOrder` (sorting slots) |

Where the source changes an object step by step there is a class with its fields and its loops
(`ResyncHold`, `FeedState`, `ItemQueue`, `SessionQueue`, `Plugin`, `SharedHud`, `Stats`, `Panel`,
`Match`, `Rules`). Each method is tied to a function of the old state, and the theorems are about
runs of those functions: any sequence of events, any interleaving of the game thread with its
workers, any answer of the engine, the hub or the network. Dictionaries are visited in an arbitrary
order. Clocks are whole milliseconds; coordinates, gaps and respawn times are reals.

## What is assumed of the surroundings

- Scheduler: `outgoing_sequence`, as the frame hook reads it, is the number of the next message built
  for the client; that message is full exactly when `delta_message` is not positive or the engine
  itself resyncs the slot, otherwise a delta from the message the client last acknowledged. A client
  is sent at most one message per frame and acknowledges only what was sent. This is `HoldChain.Possible`
  and `HoldChain.Send`. `HoldLedger.RunLimits` needs of it that a client whose hold goes on was sent at most
  one message since the call before; `RunBalances` and `RunBudget` need nothing.
- Telemetry: the game thread is cut into steps wherever it reads or writes something a worker also
  touches: each acknowledgement it applies, the end of each drain, the look at the slot, the cut of the
  batch, the begin of the post, the check for a stuck one. What it does in between to its own state
  belongs to the step, and so does the result a worker records to its `complete()`; the acknowledgement
  before it and the delete from the item queue after it are steps of their own. Any worker may move
  between any two of these.
- Clock: between two events the engine may change all of its own state, also shift
  `level.start_time` over a pause; level time does not run backwards.
- HUD: Join Match opens only while a client loads. The engine drops a command over its limit and still
  reports it as sent.

## Results that differ from the expectation

- Item queue (`ItemFeed`). A worker completes its post and deletes its batch in two steps, and the game
  thread may find the slot free in between and begin a post, which reuses the generation. The queue then
  loses rows that were never delivered. `NoLossIffNoPostInWindow` gives the exact condition step by step,
  and `WindowIsReachable` a run that gets there; every run without such a look keeps the law.
- Match clock (`ClockLaws`). A restore while an earlier unfreeze hold is still pending is overridden by
  that hold. `RestoreKeptIff` gives the exact condition, and `PendingHoldReachable` a run in which a
  restore to any given time is lost: pause, unpause, and pause again before the thaw.
- Match state (`ClockLaws`). `_effective_match_state` means never to take a match in progress back to warmup
  (match_restore.py:1067-1071), but the frame's clock tracking does, and resets the clock, as soon as the
  engine shows warmup while the match runs. `FrameStaysLiveIff` gives the exact condition.
- HUD cache (`HudCache`). A systeminfo that leaves no room makes the engine drop the command while the
  cache records it. `SendKeepsCacheIff` gives the exact condition, known before the send: the command with
  every line emptied (`Bare`) is within the limit, or its fields tell the cache nothing new. By
  `HudFit.FittedFitsIff` that is when the cut command fits. `LongSysteminfoBreaksCache` is a run in which
  the first panel for the first player leaves the cache wrong.
- Saving the stream (`StreamReconcile`). With the addon off globally an enabled stream never stops
  drifting and a disabled one is disabled again on every save: `EnableRepairsIff`,
  `GloballyOffNeverQuiet` and `DisableStaysQuietIff`.
- An empty server.cfg given no cvars becomes one empty line, so the "other lines" of
  `ServerCfg.UpsertPreserves` exclude that one case.

## Model

| member | source | states |
|---|---|---|
| `HoldScheduler.ResyncHold.Frame` | demo_stream_resync_hold.py:212-367 | one frame, loop by loop over the slot dictionary in any order, ends in the state the phase description gives, and forces exactly the slots that hold afterwards |
| `HoldScheduler.ResyncHold.DropSlot` | demo_stream_resync_hold.py:171-175 | the slot is forgotten, a running hold counts as cancelled, and nothing else changes |
| `HoldScheduler.ResyncHold.Reset` | demo_stream_resync_hold.py:161-169 | every slot is dropped that way and the stream's counters are forgotten |
| `HoldScheduler.ResyncHold.End` | demo_stream_resync_hold.py:180-187 | an ended hold credits its messages to the total, to its slot and to the longest hold, and starts the cooldown |
| `HoldScheduler.ResyncHold.AdmitAll` | demo_stream_resync_hold.py:252-272 | new slots are admitted, holds and waits of clients that are not playing end |
| `HoldScheduler.ResyncHold.AskClearedAll` | demo_stream_resync_hold.py:274-287 | a cleared flag asks for a hold, or moves the anchor of a running one |
| `HoldScheduler.ResyncHold.AskCounterAll` | demo_stream_resync_hold.py:289-306 | the unexplained resyncs go to the slots whose last full snapshot is oldest, no more of them than the engine resynced |
| `HoldScheduler.ResyncHold.RunAll` | demo_stream_resync_hold.py:319-340 | each running hold ends by the first reason that applies, or forces its snapshot |
| `HoldScheduler.ResyncHold.StartAll` | demo_stream_resync_hold.py:342-367 | holds start in queue order within the room the running ones leave |
| `HoldFacts.FrameFacts` | demo_stream_resync_hold.py:212-367 | how one slot leaves a frame, told from the slot before it, through every phase |
| `HoldFacts.StartingPassesOver` | demo_stream_resync_hold.py:345-367 | a waiting flag is passed over only when the room is used up, and only slots before it in the queue start |
| `HoldLedger.BudgetFrame` | demo_stream_resync_hold.py:319-367 | no more holds run, and no more snapshots are forced, in a frame than the budget or than ran before |
| `HoldLedger.FrameBounded` | demo_stream_resync_hold.py:325-340 | one frame keeps every hold inside the message cap and the frame cap |
| `HoldLedger.RunBalances` | demo_stream_resync_hold.py:161-367 | on every run, whatever the limits and the clients do: started = acked + capped + cancelled + running, and the per-slot totals sum to the totals |
| `HoldLedger.RunBudget` | demo_stream_resync_hold.py:342-352 | on every run with a budget of at most per_frame in each frame, at most per_frame holds run |
| `HoldLedger.RunLimits` | demo_stream_resync_hold.py:161-367 | on every run with limits at most these: the books balance, at most per_frame holds run, no hold forces more than max_frames messages or lives 4 * max_frames frames, no slot waits and holds |
| `HoldChain.HoldsFullStep` | demo_stream_resync_hold.py:319-375 | while a hold runs every message from its first one on was full, whatever the engine and the client do |
| `HoldChain.FloorRun` | demo_stream_resync_hold.py:329-331 | once acknowledged, no later delta's base is below the anchor, in every continuation with the same client |
| `HoldChain.AckedHoldRepairsChain` | demo_stream_resync_hold.py:280-375 | after a hold ended by acknowledgement every message from its anchor was full, and every later message decodes through bases at or above the anchor, moved anchors included |
| `HoldWitness.AcknowledgedHoldReachable` | demo_stream_resync_hold.py:329-331 | such a run exists: two frames from a new scheduler in which a hold starts and is ended by the acknowledgement of its anchor |
| `HoldLiveness.FlagsFirst` | demo_stream_resync_hold.py:342-352 | every frame that leaves a flag waiting, raised in it or before: unless the relay is behind and nothing starts, the whole budget is used and only flags that asked before it start, lower slots first in the same frame |
| `HoldLiveness.FlagNeverStarves` | demo_stream_resync_hold.py:311-367 | a waiting flag starts within (slots) * 4 * max_frames frames while its client plays and the relay keeps up |
| `HoldPolicy.WaitsAreFresh` | demo_stream_resync_hold.py:311-328 | after every frame a keyframe or first-sight wait is at most 60 frames old, and while the relay is behind no slot holds and only flags wait |
| `HoldPolicy.CooldownRespected` | demo_stream_resync_hold.py:351-352 | only a flag hold starts while its slot cools down |
| `HoldPolicy.CooldownBegins` | demo_stream_resync_hold.py:186-187 | after every frame: a slot whose hold ended in it, while admitting or while running, cools down for 20 frames; any other slot watched before keeps its cooldown, and a new one has none |
| `HoldPolicy.CounterTakesOldest` | demo_stream_resync_hold.py:293-306 | as many candidates as the engine resynced, never more, and none left out has an older full snapshot than one taken |
| `PostFeed.FeedState.SyncEnabled` | telemetry_unified_sched.py:114-122 | the edge is reported exactly when the switch changed |
| `PostFeed.FeedState.ResetCircuit` | telemetry_unified_sched.py:124-131 | the breaker is armed again, and the answer says whether that changed anything |
| `PostFeed.FeedState.RecordResult` | telemetry_unified_sched.py:133-143 | the failure count and the breaker after a result, and whether this result opened it |
| `PostFeed.FeedState.CheckStuck` | telemetry_unified_sched.py:145-158 | a post in flight for longer than the limit frees the slot and outdates its generation |
| `PostFeed.FeedState.Complete` | telemetry_unified_sched.py:167-180 | a stale generation changes nothing, a current one frees the slot |
| `PostFeed.CircuitOpensOnRow` | telemetry_unified_sched.py:133-143 | the breaker is open exactly when some failThreshold results in a row failed since it was armed |
| `PostFeed.CircuitAnnouncedOnce` | telemetry_unified_sched.py:133-143 | the trip is announced at exactly one result: the one that completes the first such row |
| `ItemFeed.ItemQueue.OnItemEvent` | stream_telemetry_unified.py:1502-1537 | a full queue refuses the event, otherwise it is appended and a batch may be posted |
| `ItemFeed.ItemQueue.Drive` | stream_telemetry_unified.py:1673-1694 | a frame re-arms, reclaims a stuck post or starts the next one, never two of these |
| `ItemFeed.ItemQueue.Answer` | stream_telemetry_unified.py:1649-1671 | a worker's complete(): only a current, accepted post goes on to delete |
| `ItemFeed.LawfulAnswer` | stream_telemetry_unified.py:1649-1657 | a stale worker changes nothing shared |
| `ItemFeed.ItemLaw` | stream_telemetry_unified.py:1561-1694 | on every run that never finds the slot free inside a window: accepted = delivered followed by queued, the slot is taken exactly when one unfinished post is current, and its batch is the queue's front |
| `ItemFeed.ItemRuns` | stream_telemetry_unified.py:1561-1694 | so from the empty queue each accepted row is delivered or queued, once and in order, and none is lost |
| `ItemFeed.NoLossIffNoPostInWindow` | stream_telemetry_unified.py:1649-1653 | a step is safe for all continuations if and only if it does not find the slot free between a worker's complete() and its delete |
| `ItemFeed.WindowIsReachable` | stream_telemetry_unified.py:1569-1587 | such a step can happen: one event posted, its worker completes, another event arrives |
| `SessionFeed.AckBatch` | telemetry_unified_sched.py:183-195 | exactly the rows of the batch go, by identity, and the others keep their order |
| `SessionFeed.SessionQueue.Enqueue` | stream_telemetry_unified.py:2056-2078 | a full queue loses its oldest row to the new one |
| `SessionFeed.SessionQueue.PostNow` | stream_telemetry_unified.py:1952-1964 | a lifecycle row is posted alone, if no post is in flight |
| `SessionFeed.SessionQueue.ApplyAcks` | stream_telemetry_unified.py:2278-2280 | every pending acknowledgement is applied in order |
| `SessionFeed.SessionQueue.Drive` | stream_telemetry_unified.py:2301-2345 | what a whole frame does when no worker moves |
| `SessionFeed.SessionQueue.Settle` | stream_telemetry_unified.py:2258-2264 | a batch is settled unless the relay asks for it again |
| `SessionFeed.KeepFirst` | stream_telemetry_unified.py:2075-2076 | cutting the front is removing that one row |
| `SessionFeed.SessionLaw` | stream_telemetry_unified.py:2228-2345 | on every interleaving, a worker between any two reads of the frame included: rows leave only by the cap or by an acknowledged batch that was delivered or rejected, in order, and no row of a batch settled while current is in a later batch |
| `SessionFeed.SessionRuns` | stream_telemetry_unified.py:2228-2345 | so from the empty queue: what is queued is what was enqueued without the capped and the acknowledged rows, and batches settled in time share no row with a later one |
| `SessionFeed.SecondDrainNeeded` | stream_telemetry_unified.py:2336-2339 | without the second drain a settled row is taken again: a run that gets there |
| `MatchClock.Plugin.FramePoll` | match_restore.py:1020-1055 | the frame hook: the due thaw, the pause edges, then the running clock |
| `MatchClock.Plugin.FinishThaw` | match_restore.py:791-815 | the thaw re-anchors the clocks at the hold and ends it |
| `MatchClock.Plugin.ResyncAfterUnpause` | match_restore.py:1192-1222 | the map-time anchor is always moved, the engine's start time only after a restore |
| `MatchClock.Plugin.BeginUnpauseHold` | match_restore.py:742-763 | the hold takes the restored time, else the frozen one, else the running one |
| `MatchClock.Plugin.NotePauseCommand` | match_restore.py:783-789 | a pause freezes the clock unless a hold is pending |
| `MatchClock.Plugin.TrackMatchClock` | match_restore.py:1151-1172 | game-state edges, then the elapsed time of a paused, held or running match |
| `MatchClock.Plugin.ApplyMatchTime` | match_restore.py:3277-3336 | a restore sets engine, anchor and frozen time at once, if the match is live |
| `MatchClock.Plugin.OpenLiveWindow` | match_restore.py:843-856 | the short live window of a restore and its clock phase, for a paused match and for a running one, which gets no window |
| `MatchClock.Plugin.CloseLiveWindow` | match_restore.py:2706-2737 | the match is paused again unless it is in warmup and the engine ignores the command |
| `MatchClock.Plugin.ReadLevelTime` | match_restore.py:3257-3269 | what an export reads, and what reading changes |
| `ClockLaws.RestoreResumes` | match_restore.py:742-815 | a restore of a paused match that is live to the plugin, the engine's label lagging or missing included: every later read gives its time, and at the thaw the map clock and the engine clock both show it, however long the pause and the hold last |
| `ClockLaws.RestoreKeptIff` | match_restore.py:742-745 | that holds on every continuation if and only if no hold was pending at the restore, or the pending one came from a restore to the same time |
| `ClockLaws.PendingHoldReachable` | match_restore.py:742-745 | from the initial clock, whatever the engine shows, a run leads to a live pause with a hold pending that a restore to the given time cannot replace |
| `ClockLaws.PlainNeverWrites` | match_restore.py:1192-1215 | without a restore since the last thaw the plugin never writes the engine's start time, on any run |
| `ClockLaws.ThawIsPlain` | match_restore.py:791-806 | after every thaw there is no restore left to apply |
| `ClockLaws.PlainPauseResumes` | match_restore.py:935-949 | a plain pause of a match that is live to the plugin, by the operator's line or first seen by the frame poll: every read gives the elapsed time at its start, and the thaw resumes the map clock there |
| `ClockLaws.FrameStaysLiveIff` | match_restore.py:1064-1078 | a match the plugin has seen live stays live through a frame exactly unless it runs and the engine shows warmup |
| `ClockLaws.HoldShapedStep` | match_restore.py:749-769 | a pending hold always has a value and a deadline |
| `RespawnScan.LastDeathMs` | restore/qlmatch.py:837-856 | the latest death of the player by the target |
| `RespawnScan.LastDeathMeans` | restore/qlmatch.py:837-856 | it is recorded, not after the target, and none recorded is later |
| `RespawnScan.FirstRespawnTeleportMs` | restore/qlmatch.py:871-904 | what the loop returns is the first teleport-sized jump between consecutive sightings of the player, none exactly when there is no such jump |
| `RespawnScan.RespawnIsFirstJump` | restore/qlmatch.py:890-904 | the respawn of a recording is the first sighting at a teleport's distance from the one before it, or from the seed; none exactly when there is none |
| `RespawnScan.SnapshotsSorted` | restore/qlmatch.py:886-889 | the snapshots scanned are those of the file, in time order, equal times in file order |
| `RespawnScan.BoundedRespawn` | restore/qlmatch.py:890-904 | the scan up to a target finds what the unbounded one finds, if that is not later, for any order of the events |
| `RespawnScan.ApplyDeathOverrides` | restore/qlmatch.py:937-947 | every row is overridden in place as the recording says |
| `RespawnScan.DeathOverrideAgrees` | restore/qlmatch.py:913-947 | without a recorded death by the target the row is untouched; between the last death and the first respawn the player is dead and his time left ends at the respawn; from the respawn on the row is untouched |
| `RespawnScan.SameDeathSameRespawn` | restore/qlmatch.py:913-947 | every target before the next death sees the same last death, so the same respawn |
| `RespawnScan.RespawnAfterDeath` | restore/qlmatch.py:884-904 | the respawn found is a recorded snapshot after the death |
| `ItemRespawn.PickupStateAt` | restore/qlmatch.py:565-610 | the fold over the pickups, less the spots whose respawn time is over |
| `ItemRespawn.FoldIsLast` | restore/qlmatch.py:575-599 | a spot is in the fold exactly when its last counted event is a pickup, with that event's data |
| `ItemRespawn.PickupForSpawn` | restore/qlmatch.py:624-640 | the spawn's own spot if it is there, else a nearest one in its column within the tolerance, and none only if there is none |
| `ItemRespawn.BuildItemRows` | restore/qlmatch.py:643-676 | every spawn point, matched by its own spot or through the tolerance, has the row of what it finds if that still waits, and there is no other row |
| `ItemRespawn.FallbackNeverFires` | restore/items.py:62-72 | the second way to compute the time left never changes the result |
| `ItemRespawn.ExportMeans` | restore/items.py:39-83 | the row waits exactly when more than 50 ms are left, and then carries the deadline |
| `ItemRespawn.DeadlineSurvives` | restore/items.py:86-109 | fold, export, canonical form and plan give a pending spot back exactly p plus r, and any other spot no row |
| `ItemRespawn.SpawnDeadlineSurvives` | restore/qlmatch.py:643-676 | the chain for a spawn point through whatever it matches: restored to reappear exactly at p plus r, or without a row |
| `ClockText.ParseFormat` | restore/qlmatch.py:78-112 | parsing undoes printing for every time, negative ones printing as zero |
| `ClockText.ParseParts` | restore/qlmatch.py:78-98 | what a text of the strict shape means |
| `ClockText.ParseIff` | restore/qlmatch.py:78-98 | exactly the texts of the strict shape, in any decimal digits and with any white space around them, are accepted, with their meaning |
| `ClockText.FormatParse` | restore/qlmatch.py:101-112 | every accepted text has a canonical form with its meaning, equal exactly for equal meanings |
| `HudFit.FitMeans` | modhud_util.py:85-91 | a fitted line is the longest prefix of whole characters within the limit, or one short of it for half a colour code |
| `HudFit.FittedCommand` | modhud_util.py:125-138 | the cutting loop ends, because the line bytes fall strictly |
| `HudFit.FittedMeans` | modhud_util.py:125-138 | the result is within the limit or has no line left, each line is a prefix of the original, and a command that fits is untouched |
| `HudFit.FittedFitsIff` | modhud_util.py:125-138 | the cut command fits if and only if the one without any line text does |
| `HudCache.SharedHud.Send` | modhud_util.py:242-276 | what goes to the client, and the cache and the plugin's record afterwards, delivered or refused |
| `HudCache.SharedHud.ResetClients` | modhud_util.py:141-146 | every cached client becomes unknown |
| `HudCache.SharedHud.Joined` | modhud_util.py:159-168 | the first join after a load makes the client unknown once more |
| `HudCache.HudAgrees` | modhud_util.py:141-276 | on every run of several plugins whose sends are safe beforehand: each cached line is unknown or right, and the switch too outside the load window |
| `HudCache.DiffIsWhole` | modhud_util.py:113-116 | a delivered diff that leaves room makes the client show all four fields as asked for, or as cut to fit |
| `HudCache.ForgottenIsResent` | modhud_util.py:141-239 | after a map load, a load, the first join or hello, a disconnect or a refused send, the next panel carries all four fields |
| `HudCache.SendKeepsCacheIff` | modhud_util.py:264-276 | in an agreeing world, a send keeps the cache right for every client it allows if and only if, before it, the emptied command fits or tells the cache nothing new |
| `HudCache.LongSysteminfoNeverFits` | modhud_util.py:131-133 | a systeminfo of the limit's length leaves room for no command |
| `HudCache.LongSysteminfoBreaksCache` | modhud_util.py:264-276 | with such a systeminfo a run from the start ends with a cache that is wrong about what its client shows |
| `HudCache.CacheCanBreak` | modhud_util.py:264-276 | there is such a systeminfo, so without a condition on the sends the agreement fails |
| `FrameStats.Stats.Add` | frame_timing.py:49-55 | the histogram, the late count and the maximum describe the gaps added so far |
| `FrameStats.Stats.Percentile` | frame_timing.py:57-66 | the scan reports the rank-th smallest gap, rounded up past its millisecond, or the maximum from 100 ms on |
| `FrameStats.Stats.Snapshot` | frame_timing.py:68-76 | the median reported is never above the 99th percentile |
| `FrameStats.PercentileBound` | frame_timing.py:57-66 | below 100 ms the report is above the exact value by at most a millisecond |
| `FrameStats.KthExists` | frame_timing.py:60-66 | there is an exact value for every rank |
| `FrameStats.Stats.BucketsSumToFrames` | frame_timing.py:49-55 | the buckets sum to the number of frames |
| `ServerCfg.UpsertCvars` | addons/demo-stream/stats_hub.py:262-290 | the rewriting loops give the described text |
| `ServerCfg.StripCvars` | addons/demo-stream/stats_hub.py:293-305 | exactly the lines of the names go |
| `ServerCfg.ReadCvars` | addons/demo-stream/stats_hub.py:308-318 | what is read is what executing the file would set |
| `ServerCfg.ParseSetLine` | addons/demo-stream/stats_hub.py:250-259 | a written line reads back |
| `ServerCfg.LinesOfJoined` | addons/demo-stream/stats_hub.py:290 | splitting undoes joining |
| `ServerCfg.UpsertPreserves` | addons/demo-stream/stats_hub.py:262-318 | executed, the new file gives the old settings overridden by the cvars, each on exactly one line; other lines stay in order, the cvars read back, and a second rewrite changes nothing |
| `ServerCfg.StripUnsets` | addons/demo-stream/stats_hub.py:293-318 | stripped names read as unset, other settings stay, and stripping undoes upserting |
| `StreamReconcile.Panel.Enable` | addons/demo-stream/instance_ops.py:235-306 | what an enable stores and writes at each point where it can stop, and when it succeeds |
| `StreamReconcile.Panel.Disable` | addons/demo-stream/instance_ops.py:309-335 | what a disable stores and writes |
| `StreamReconcile.Panel.Write` | addons/demo-stream/instance_ops.py:190-209 | the cvars leave server.cfg for the launch arguments, or go into it |
| `StreamReconcile.EnableRepairsIff` | addons/demo-stream/backend.py:522-550 | after a successful enable nothing is drifted, if and only if the addon is on globally |
| `StreamReconcile.SavedEnableStaysQuiet` | addons/demo-stream/backend.py:586-650 | a save that keeps the repaired stream on plans no enable or disable, and nothing at all for an unchanged delay |
| `StreamReconcile.GloballyOffNeverQuiet` | addons/demo-stream/backend.py:627-637 | with the addon off globally every such save plans the enable again |
| `StreamReconcile.DisableStaysQuietIff` | addons/demo-stream/backend.py:611-622 | after a disable an off-save with a blank delay plans nothing if and only if the addon is on globally |
| `StreamReconcile.OthersUntouched` | addons/demo-stream/instance_ops.py:190-335 | an enable or a disable changes nothing of another instance |
| `GunGame.CounterMoves` | gungame.py:106-129 | every event is a move of one counter: plus one, minus one down to zero, or to the start of a step; without a win the player stays on the ladder |
| `GunGame.PositionDecides` | gungame.py:106-129 | the counter determines step and frags |
| `GunGame.BackUndoesFrag` | gungame.py:110-115 | "back" exactly undoes a frag |
| `GunGame.PickLeader` | gungame.py:144-153 | the leader has the highest step, keeps a tie, and there is none exactly when nobody left step 0 |
| `GunGame.Match.HandleKill` | gungame.py:522-547 | the standings after a kill, one by the victim himself included, the win, and a leader that is right afterwards |
| `GunGame.Match.HandleDeath` | gungame.py:549-566 | the standings after a death of one's own, and a leader that is right afterwards |
| `TowerDefence.Rules.Tick` | td_rules.py:109-137 | one step of the clock and the creep it spawns |
| `TowerDefence.Rules.Build` | td_rules.py:151-163 | what building costs and when it is refused |
| `TowerDefence.Rules.Upgrade` | td_rules.py:165-178 | what an upgrade costs and when it is refused |
| `TowerDefence.Rules.Sell` | td_rules.py:180-186 | what selling brings back |
| `TowerDefence.GameLaw` | td_rules.py:79-186 | over a whole game: money is never negative and equals 300 + rewards + bonuses - prices + refunds since the reset; every wave spawns a prefix of its list and is paid at most once and only in full; a loss means no lives are left |
| `TowerDefence.WinMeansAllWaves` | td_rules.py:109-137 | a win without a jump: all 15 waves in order, each spawned in full and paid once |
| `TowerDefence.TradingNeverGains` | td_rules.py:151-186 | money plus the prices on pads stays the same under building and upgrading and never rises by selling |

## Left out

- The event log, the chat output and the cvar clamps of the scheduler, and its error handling; its
  counters are grouped into the records `Totals` and `Link`.
- Positions telemetry, the pause and game-time polling inside the session frame, payload contents, the
  relay's answer texts and the retries inside one post: a worker's answer is any of its outcomes.
- `PostFeed.FeedState.Complete`: taken as one step; the two assignments inside it are not interleaved
  with the game thread.
- Failures of the engine's level pointer in the clock; positions, velocities, views, items and players of a
  restore. A restore of a match that is not paused is a step of every run, but the theorems about what a
  restore shows afterwards are for a paused match, where there is a thaw to wait for.
- The entity search of a restore, drop rows, score rows, velocities and loadout masks.
- `ItemRespawn.PickupForSpawn`: ties at the same distance above and below are broken by the order of
  the dictionary, which is left open.
- `ClockText.ParseIff`: the decimal digits and white space are those of Unicode 14; a limit of the interpreter on
  the length of a number is not modelled.
- `HudFit.FitMeans`: a text is a sequence of characters with their UTF-8 lengths, not an array of bytes.
- Tokens, small glyphs, gaps between icons and centre prints of the HUD; values are taken as already
  cleaned of quotes, backslashes and semicolons, as `fields()` leaves them.
- Floating-point rounding: distances, gaps, respawn times and delays are exact reals; the rounded
  maximum and tick of a snapshot are left out.
- `FrameStats.Stats.Add`: for gaps that are not negative, as a monotonic clock gives them.
- `ServerCfg.UpsertPreserves`: for cvar names of letters, digits and underscores and values without
  quotes or line breaks; the engine's execution is that of the `set` and `seta` lines the parser knows.
- The hub, the database, the job queue, statuses and messages of the stream's enable and disable; the
  per-instance settings are one record for each instance.
- Loadouts, panels, notices, item hiding and score writing of Gun Game; the text form of the ladder.
- Creep movement, missiles, turrets firing and messages of tower defence, and its hit point scaling.
- `TowerDefence.Rules.Jump`: for waves 1 to 15, the range its command allows.
