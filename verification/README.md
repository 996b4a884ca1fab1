# Verification model of the traffic, routing and configuration core

This project models the part of the panel that counts traffic, stops proxies at
their limits, and keeps sing-box's configuration and the host's counter rules in
order. It states what those parts promise and proves it with Dafny, for all inputs
and all runs.

| file | models |
|---|---|
| Int64.dfy, Options.dfy, Traffic.dfy, Order.dfy | capped integers, optional values, the true bytes per second, text order and sorting |
| Vnstat.dfy | vnStat buckets, the index and its sums |
| Billing.dfy, Switches.dfy, Sources.dfy | one bill from several vnStat sources, their baselines and rows; when a baseline was read in time; the table of sources under samples, saves and crashes |
| Network.dfy, Quota.dfy, EntryTracker.dfy, EntryLife.dfy | the vnStat billing period, the proxy estimate and the quota stop; the tracker's own fields; whole lives with restarts |
| History.dfy | counters, pending history, the durable commit, crashes and core restarts |
| Apps.dfy, TailFold.dfy | bytes per application, and the fold of the smallest rows |
| Gateways.dfy | gateway counters, allowance periods, daily record, checkpoints and crashes |
| Firewall.dfy | the counter chains and jumps in the filter table |
| Egress.dfy, Credentials.dfy, Render.dfy | derived nodes and their names, credentials and users, the rendered rules |
| Transaction.dfy | saved configuration and core file as one transaction |
| Calendar.dfy | monthly periods |

Code that changes fields or runs loops is a class or a method, proved equal to a
specification function. The theorems are lemmas about those functions: over ghost
per-second traffic, over runs of events with faults at every step, or over every
packet and user. Integers are unbounded and capped where the code caps; times are
whole seconds, and 0 is Go's zero time. The database is a set of maps with one
atomic commit. Clocks, random names and hashes, and what vnStat, iptables and the
Clash API answer are parameters.

## What does not hold

Where a promise turned out false of the code, a lemma gives an input and another
the exact condition.

- A range sum that ends after vnStat's last update is not flagged, although later
  bytes are missing (`Vnstat.UnflaggedAfterUpdate`). An unflagged sum is the true
  traffic exactly when the range ends by then (`Vnstat.UnflaggedIffUpdated`).
- When the billed interface is switched between two vnStat updates, the bytes since
  the last update are billed for the new source although it was not yet available
  (`Billing.EarlierBytesBilled`, `Network.EarlySwitchAccepted`). On times alone: the
  source's bill is right, for all traffic, exactly when the bucket it counts first has no
  second between the reading of the baseline and the switch (`Switches.SwitchedBillIff`,
  `Switches.NothingEarlierIff`; bucket by bucket `Switches.SinceExactIff`). It is always
  so for a first source and a recreated database (`SourceTable.BaselineInTime`).
- With vnStat's clock ahead of the panel's, growth before the anchor moment is
  counted (`EntryQuota.ClockAheadCountsEarlier`), exactly when a core sample with
  growth came in between (`EntryQuota.EstimateIsLaterGrowth`).
- A manual reset between a monthly boundary and vnStat's first update after it can
  cost counted proxy bytes, and after a restart release a saved stop
  (`EntryLife.EarlyResetDropsEstimate`). The anchor stays in place exactly when there
  was an update (`EntryLife.ResetAligns`); else bytes are dropped exactly as
  `EntryLife.UnalignedRead` says, and the stop is lost exactly unless
  `EntryLife.UnalignedStop` or, after a restart, `EntryLife.RestartReadStop` keeps it.
- With an unreadable invocation ID a core restart can go unnoticed and lose bytes
  (`History.UnreadableRestartLoses`, exactly unless `History.UnreadableRestart`), and
  applications can then get more than the proxy (`Apps.UnrecognisedRestartOvercounts`,
  exactly unless `Apps.UnrecognisedRestart`).
- Deleting one of two equal iptables rules removes the older with its counter
  (`Firewall.EqualRulesLoseCounters`); a kept rule keeps its own exactly when the last
  rule equal to it shows the same (`Firewall.CountersSurvive`).
- When a rollback fails as well, saved configuration and core file can come apart
  (`Transaction.UndoCanFail`), exactly as `Transaction.FailedUndo` and
  `Transaction.FailedPause` say.
- The pauses recorded as applied can differ from those in the core file while no
  inbound is enabled (`Transaction.PausesCanDrift`, exactly unless
  `Transaction.RecordedIff`); the file is still a rendering of the saved configuration.

## Model

| member | source | states |
|---|---|---|
| `Vnstat.PiecesTile` | internal/nettraffic/vnstat.go:232-277 | the day, hour and five-minute buckets a sum adds up, and the stretches it gives up on, are disjoint, inside the clipped range, and fill it; every counted bucket is recorded wholly inside |
| `Vnstat.SumExact` | internal/nettraffic/vnstat.go:232-283 | against a per-second traffic function: a sum never exceeds the true bytes of the range, and equals them (capped at the largest int64) when not flagged partial and the range ends by the last update |
| `Vnstat.PartialIff` | internal/nettraffic/vnstat.go:232-277 | the flag is set if and only if the range starts outside the recorded lifetime or some second of it lies in no bucket recorded wholly inside the range |
| `Vnstat.UnflaggedIffUpdated` | internal/nettraffic/vnstat.go:232-283 | an unflagged sum is the true traffic of its range, for all traffic the buckets are exact for, if and only if the range ends by the last update |
| `Vnstat.AdjacentRanges` | internal/nettraffic/vnstat.go:232-277 | two complete adjacent ranges are complete together and their sums add up |
| `Vnstat.UnflaggedAfterUpdate` | internal/nettraffic/vnstat.go:232-277 | a snapshot as vnStat gives it where bytes passed after the last update are missing from a sum that is not flagged |
| `Vnstat.SortByLeft` | internal/nettraffic/vnstat.go:209-221 | sorting the recorded parts by left edge keeps them all |
| `Vnstat.SameExtents` | internal/nettraffic/vnstat.go:209-230 | coverage depends on which parts are recorded, not on their order |
| `Vnstat.HasCoverage` | internal/nettraffic/vnstat.go:286-295 | the linear scan finds a recorded part in the range exactly when there is one |
| `Vnstat.Index.constructor` | internal/nettraffic/vnstat.go:209-221 | the built index stands for its snapshot: the last bucket of each key, and all recorded parts in order of their left edges |
| `Vnstat.Index.HasCoverage` | internal/nettraffic/vnstat.go:222-230 | the binary search answers exactly what the linear scan of the snapshot answers |
| `Vnstat.Index.SumLevel` | internal/nettraffic/vnstat.go:232-277 | the recursive loop adds exactly the pieces of the tiling at its level |
| `Vnstat.Index.Sum` | internal/nettraffic/vnstat.go:232-283 | the sum and the flag are those of the tiling of the whole range |
| `Billing.NetworkSince` | internal/traffic/network_history.go:157-174 | subtracts the baseline bucket by bucket and raises the creation time |
| `Billing.SinceBytes` | internal/traffic/network_history.go:157-174 | a bucket is left with the bytes since the source became available, plus those between the reading of the baseline and that moment, less those between that moment and the reading |
| `Billing.SinceExact` | internal/traffic/network_history.go:157-174 | the remaining buckets are exact if and only if in none of them bytes passed between the reading of the baseline and the moment the source became available, either way round |
| `Billing.CollectBaseline` | internal/traffic/network.go:190-198 | keeps the buckets around the moment a new source became available |
| `Billing.BaselineCollected` | internal/traffic/network.go:186-198 | those buckets are the baseline networkSince needs, for every later snapshot of the source: one switched to, one recreated, and with either clock ahead |
| `Switches.SinceExactIff` | internal/traffic/network_history.go:157-174 | for all traffic, snapshots with these times and baselines read at one moment, the remaining buckets are exact if and only if no bucket that counts has a second between that moment and the one the source became available |
| `SourceTable.BaselineInTime` | internal/traffic/network.go:139-198 | the baseline the code keeps is read in time for the first source ever and for a recreated database; after a switch if and only if every bucket that counts began by no sooner than the sample |
| `Billing.MergeNetworkBuckets` | internal/traffic/network.go:322-339 | refuses exactly a bucket below the one it replaces, and otherwise lets the newer bucket of each key win |
| `Billing.MergedExact` | internal/traffic/network.go:322-339 | rows kept after vnStat dropped them stay exact if and only if nothing passed in them after they were last saved |
| `Billing.MergedTwice` | internal/traffic/network.go:199-213 | merging the same snapshot again changes nothing, and is accepted if and only if no bucket is below a later one of its own key |
| `Billing.RetryAccepted` | internal/traffic/network.go:322-339 | so a retry of a parsed snapshot is always accepted |
| `Billing.Sweep` | internal/traffic/network_history.go:144-155 | the sweep over the sorted windows finds a gap exactly when some second of the period is in no window |
| `Billing.SumNetworkSources` | internal/traffic/network_history.go:122-155 | the loop adds the capped sums of the sources that have coverage and flags exactly partial sources and uncovered seconds |
| `Billing.BillExact` | internal/traffic/network_history.go:122-155 | for sources on one timeline with exact buckets the bill never counts a byte outside the period, before a source became available, or twice; when not partial it is the true traffic of the period |
| `Switches.BillAfterSwitches` | internal/traffic/network_history.go:122-174 | networkSince followed by sumNetworkSources: from the sources' own exact buckets and baselines read in time, on one timeline, the bill counts no byte twice, from outside the period or from before its source was available; when not partial it is the true traffic |
| `Switches.FirstPiece` | internal/nettraffic/vnstat.go:246-277 | a sum begins with the widest bucket that begins the range and lies in it, or with a gap when there is none |
| `Switches.SwitchedSum` | internal/traffic/network_history.go:122-174 | a sum after networkSince differs from the true traffic in its first bucket only, by what passed in it between the reading of the baseline and the moment the source became available |
| `Switches.SwitchedBill` | internal/traffic/network_history.go:122-174 | the same for the bill of one source: a bound in any case, and the exact value when it is not flagged |
| `Switches.BillFlag` | internal/traffic/network_history.go:122-174 | the flag of that bill depends on times only |
| `Switches.SwitchedBillIff` | internal/traffic/network_history.go:122-174 | an unflagged bill of one source is the true traffic, for all traffic and baselines that fit its times, if and only if its first bucket has no second between the two moments |
| `Switches.NothingEarlierIff` | internal/traffic/network_history.go:122-174 | flagged or not, the bill has no byte from before the source was available, for all that fit, if and only if the baseline of its first bucket was not read before that moment |
| `Billing.EarlierBytesBilled` | internal/traffic/network.go:167-198 | two readings of a source, the first taken 100 seconds after its update, after which the bytes in between are billed: without the flag from the switch on, and in every bill that begins earlier |
| `Network.EarlySwitchAccepted` | internal/traffic/network.go:94-112 | the switch of that input is accepted like any other |
| `Billing.WindowedSum` | internal/traffic/network_history.go:27-62 | bounding the read of the rows on both sides changes neither sum nor flag of any range inside the window |
| `Billing.WindowedSource` | internal/traffic/network_history.go:27-62 | a source read through the window, its baseline too, has the same coverage, sum and flag as the whole one in every range inside the window |
| `Billing.NewSourceOverlap` | internal/traffic/network_history.go:175-183 | a new source overlaps an older one if and only if it claims to be available before a nonempty closed source ended |
| `Billing.SavesKeepTimeline` | internal/traffic/network_history.go:175-208 | over any run of saves and retries in which new sources begin after the others ended, no second of the billing timeline belongs to two sources |
| `SourceTable.ListedApart` | internal/traffic/network_history.go:66-118 | the sources listed from a table without overlap do not overlap |
| `SourceTable.CloseUnsaved` | internal/traffic/network.go:238-244 | the loop closes every listed source at the moment the running one became available |
| `SourceTable.BilledApart` | internal/traffic/network.go:222-246 | from a table without overlap the sources of every bill are on one timeline, also when the last switch is not saved yet |
| `SourceTable.TableNeverOverlaps` | internal/traffic/network.go:139-200 | with the clocks in order, over every interleaving of samples, switches, recreations, saves, failed saves and crashes, no second belongs to two sources of the table |
| `SourceTable.RunningBillExact` | internal/traffic/network.go:214-246 | at any moment of such a run, if the billed sources' own buckets are exact and their baselines were read in time, the bill of the next reading never counts a byte twice or from outside the period, and is the true traffic when it is not flagged |
| `Network.SampleKeepsGood` | internal/traffic/network.go:69-296 | every accepted sample keeps the counters, carries and usage nonnegative and ordered |
| `Network.SampleMonotone` | internal/traffic/network.go:69-256 | inside a period no sample lowers the recorded RX or TX: same source, missing buckets, recreated database or switched interface |
| `Network.PeriodUsageMonotone` | internal/traffic/network.go:69-308 | the same over every run of readings, failures, switches and recreations inside one period |
| `Network.BegunCarry` | internal/traffic/network.go:118-137 | opening a period keeps usage and carries in range, and inside a period changes nothing |
| `Network.SwitchCarry` | internal/traffic/network.go:152-185 | switching the source carries what was counted, and inside a period carries exactly it |
| `Network.SwitchCountsOnce` | internal/traffic/network.go:167-185 | a switch adds nothing of a source with its own history, and of a recreated database only true bytes from after the old database's last update and inside the period |
| `Network.UsageBounds` | internal/traffic/network.go:214-256 | the measured usage is in range, follows the counters over carry and baseline, and inside a period is never below what was counted |
| `EntryQuota.AnchorSplits` | internal/traffic/network.go:445-468 | the anchor splits the retained growth exactly at the anchor moment |
| `EntryQuota.NothingEarly` | internal/traffic/network.go:445-468 | growth was counted early if and only if a sample that reports some came at or before the moment |
| `EntryQuota.EstimateIsLaterGrowth` | internal/traffic/network.go:422-481 | over every run from any stored state the bytes above the anchor are the growth of retained samples strictly after the anchor moment, the bytes a stored anchor left open, and what came in since anchoring with an earlier time; the last is nothing if and only if every sample with growth since anchoring came after the moment |
| `EntryQuota.ClockAheadCountsEarlier` | internal/traffic/network.go:422-468 | a run from a stored state where vnStat's clock is ahead of the panel's and earlier growth is counted |
| `EntryQuota.SoundSampled` | internal/traffic/network.go:94-287 | every accepted vnStat sample leaves the anchor at most at the total, at its own moment, and the source available when it should be |
| `EntryQuota.OutageKeepsStop` | internal/traffic/network.go:396-481 | from a settled entry, while vnStat brings nothing new, enforced usage never falls and no core sample or reconciliation clears a stop, also when no source was ever read |
| `EntryQuota.ResetStartsOver` | internal/traffic/network.go:340-377 | after a manual reset the stop returns if and only if the bytes vnStat has not seen alone reach the limit |
| `EntryQuota.CalibrationExact` | internal/traffic/network.go:487-519 | after calibration the enforced usage is the provider's figure |
| `EntryTracking.EntryTracker.constructor` | internal/traffic/tracker.go:80-111 | starts from the stored state with no marks |
| `EntryTracking.EntryTracker.RecordProxyMark` | internal/traffic/network.go:422-440 | appends a mark, trims in place those out of the window, and moves an anchor not yet known |
| `EntryTracking.EntryTracker.AnchorProxy` | internal/traffic/network.go:445-468 | the anchor loop over the marks computes the anchor of the specification |
| `EntryTracking.EntryTracker.ApplyCoreDelta` | internal/traffic/tracker.go:257-278 | a core sample adds its bytes, records a mark and raises the stop exactly when the limit is reached |
| `EntryTracking.EntryTracker.ReconcileNetworkQuota` | internal/traffic/network.go:396-413 | sets or clears the stop as the step of the run theorems does |
| `EntryTracking.EntryTracker.NetworkFailure` | internal/traffic/network.go:298-308 | a failed read changes the health and nothing else |
| `EntryTracking.EntryTracker.TakeOver` | internal/traffic/network.go:167-185 | switches to a new source without losing or repeating its bytes |
| `EntryTracking.EntryTracker.Prepare` | internal/traffic/network.go:113-185 | period, books and source together |
| `EntryTracking.EntryTracker.TakeSample` | internal/traffic/network.go:69-296 | the whole sample accepts, rejects and computes as the specification does |
| `EntryTracking.EntryTracker.SampleNetwork` | internal/traffic/network.go:69-296 | one read, its failure included, is one step of the run theorems |
| `EntryTracking.EntryTracker.ResetNetwork` | internal/traffic/network.go:340-377 | samples, then starts over; refuses without a healthy sample |
| `EntryTracking.EntryTracker.CalibrateEntryUsage` | internal/traffic/network.go:487-519 | samples, then calibrates or clears; refuses negative usage and an unhealthy source |
| `EntryLife.MethodsAreActions` | internal/traffic/network.go:287-294 | a read, a reset and a calibration are the critical sections of the life machine in their order |
| `EntryLife.PublishedLater` | internal/traffic/network.go:94-98 | what a read publishes is what a read of the later state would publish, whatever core sample or check came between taking the old state and publishing |
| `EntryLife.LifeIsSound` | internal/traffic/network.go:287-519 | whatever core samples, reads, checks, resets, calibrations, quota changes, saves and restarts interleave, the running and the saved entry are sound, and aligned when no reset came before its period's first update |
| `EntryLife.CheckJustifies` | internal/traffic/network.go:396-413 | after a check the stop is on only for usage at the limit or a blind source |
| `EntryLife.OutageKeepsStopAlways` | internal/traffic/network.go:396-481 | after any such life and a check, usage never falls while vnStat brings nothing new, and the stop stays |
| `EntryLife.RestartKeepsStop` | cmd/sbm-panel/main.go:285-290 | a stop saved after a check is on again after a restart and the first check, when vnStat is not read or cannot be read |
| `EntryLife.RestartReadKeepsStop` | cmd/sbm-panel/main.go:285-290 | it is on again as well when the first read is accepted and brings nothing new, if the saved anchor is at its moment |
| `EntryLife.SavedStopSurvives` | cmd/sbm-panel/main.go:285-290 | so for every life without a reset before its period's first update: a stop that a check left on and a save kept survives a restart, vnStat unread, unreadable or without news |
| `EntryLife.ResetAligns` | internal/traffic/network.go:354-363 | a reset keeps the anchor at its moment if and only if the period had seen a vnStat update |
| `EntryLife.UnalignedRead` | internal/traffic/network.go:445-468 | otherwise a reading with nothing new drops counted bytes, unless there are none or the marks reach back far enough, and only then |
| `EntryLife.UnalignedStop` | internal/traffic/network.go:396-481 | after such a reading with the same counters or bill the stop survives the next check if and only if the usage with the bytes above the new anchor still reaches the limit, or the source does not cover the period |
| `EntryLife.RestartReadStop` | cmd/sbm-panel/main.go:285-290 | a saved stop is on again after a restart and a first reading that repeats the saved one, if and only if the saved anchor is at its moment, vnStat's own usage reaches the limit, or the source does not cover the period |
| `EntryLife.EarlyResetDropsEstimate` | internal/traffic/network.go:340-377 | a whole life, a switch right after a boundary, a reset, counted bytes that raise the stop, a save and a restart, after which a reading with nothing new drops the bytes and the next check clears the stop |
| `History.RunConsistent` | internal/traffic/tracker.go:409-511 | every interleaving of samples, resets, snapshots, commits, failed commits, subtractions and crashes keeps each row, its pending bytes and its partial flag consistent with what was observed |
| `History.ExactlyOnce` | internal/traffic/tracker.go:243-270 | while one core generation lasts, durable rows minus the checkpointed baseline stay constant, and outside the window between commit and subtraction durable plus pending rows follow the last reading: no byte is lost or counted twice |
| `History.RestartExact` | internal/traffic/tracker.go:243-270 | from a state with an ID, or a fresh one without ID and baseline, and with readable invocation IDs, current plus cleared totals are the sum over core generations of observed growth, and a restart is recognised exactly when there was one |
| `History.UnreadableRestart` | internal/traffic/tracker.go:243-251 | with an unreadable ID, or none stored, a real restart is counted in full if and only if a counter fell or there was no baseline |
| `History.UnreadableRestartLoses` | internal/traffic/tracker.go:243-251 | a restart with an unreadable ID and higher counters, of which only the difference is counted |
| `History.RunningCoreIsOneGeneration` | internal/traffic/tracker.go:243-251 | a core that keeps running is never taken for restarted, whatever checkpoints the panel goes back to |
| `History.HistoryTracker.constructor` | internal/traffic/history.go:86-136 | reopening starts from the checkpoint with nothing pending |
| `History.AddUsage` | internal/traffic/history.go:453-493 | one sample in the rows of one resolution |
| `History.HistoryTracker.RecordHistory` | internal/traffic/history.go:453-493 | daily and hourly rows of a sample, with gaps, restarts and the first day flagged |
| `History.HistoryTracker.ApplySample` | internal/traffic/tracker.go:234-270 | counters and rows of one reading; negative counters change nothing |
| `History.HistoryTracker.Reset` | internal/traffic/tracker.go:290-311 | clears the totals and keeps the baselines |
| `History.SubtractRows` | internal/traffic/tracker.go:460-470 | the loop leaves in every pending row what was added since the snapshot, and drops finished rows |
| `History.HistoryTracker.SubtractSaved` | internal/traffic/tracker.go:460-481 | both resolutions together |
| `Apps.Recorder.RecordConnections` | internal/traffic/apps.go:443-510 | the loop books each connection's growth, seeds after a panel restart, forgets after a core restart, and books the rest as unattributed |
| `Apps.Recorder.RecordOne` | internal/traffic/apps.go:497-507 | books one connection under its application and domain |
| `Apps.GrowthIsMoved` | internal/traffic/apps.go:488-496 | a listed connection's growth is what it moved since the last reading, also when it is new |
| `Apps.SampleBytes` | internal/traffic/apps.go:461-472 | a sample books the core's delta or the attributed growth, whichever is more, in each direction |
| `Apps.RowsGrow` | internal/traffic/apps.go:462-507 | the application rows together grow by exactly what is booked |
| `Apps.AttributedWithin` | internal/traffic/apps.go:479-509 | open connections never account for more than the core moved, in whatever order they are listed |
| `Apps.SampleConserves` | internal/traffic/apps.go:443-510 | one sample gives the applications exactly the core's bytes |
| `Apps.AppsAddUpToProxy` | internal/traffic/tracker.go:244-263 | over a whole run with panel restarts, core restarts and connections that open and close, application totals equal the proxy totals |
| `Apps.UnrecognisedRestart` | internal/traffic/apps.go:443-510 | after an unrecognised restart the totals agree if and only if the open connections moved no more than the counters exceed the old baseline |
| `Apps.UnrecognisedRestartOvercounts` | internal/traffic/apps.go:443-510 | such a restart after which applications get 20 bytes and the proxy 10 |
| `TailFold.PruneKeepsTotals` | internal/traffic/apps.go:565-647 | folding keeps total upload and download of the day or hour |
| `TailFold.PruneKeepsLargest` | internal/traffic/apps.go:565-647 | at most 200 ordinary rows stay, untouched, each at least as heavy as every folded one; other rows are untouched but for one |
| `TailFold.PruneTwice` | internal/traffic/apps.go:565-647 | folding again changes nothing |
| `TailFold.SaveConserves` | internal/traffic/apps.go:512-547 | a save adds exactly the pending bytes, whatever is folded |
| `Gateways.UnflaggedIsExact` | internal/traffic/egress.go:98-113 | a record that is not flagged has the same peer and rules, counters that only grew, at most 15 seconds since the last success, and no reset between |
| `Gateways.DayRowIsCapped` | internal/traffic/gateway_history.go:59-81 | a day's row is the capped sum of what was entered for it |
| `Gateways.GatewaysAreIndependent` | internal/traffic/egress.go:69-126 | a gateway's new state and record depend on its own configuration, state and counters only, and gateways not sampled keep both |
| `Gateways.RecordNeverReduced` | internal/traffic/egress.go:226-299 | no event reduces the daily record: reset, disabling, change of peer, deletion, calibration or failed read |
| `Gateways.RecordTelescopes` | internal/traffic/egress.go:37-42 | with one peer the record grows by the last counters of every set of rules less the first baseline, whatever happens in between |
| `Gateways.RecordSurvivesCrashes` | internal/traffic/egress.go:201-213 | the same for the record in memory and the committed one over any saves, failed saves and crashes, with what each saw replaced |
| `Gateways.CrashesCountOnce` | internal/traffic/egress.go:209-213 | while the firewall keeps its rules no crash loses or repeats a byte: record and baseline grow alike |
| `Gateways.ConfiguringCounts` | internal/traffic/egress.go:236-254 | a configuration change touches no usage and no counter, and gives up the baseline if and only if the peer changes |
| `Gateways.PeriodFollowsRecord` | internal/traffic/egress.go:98-113 | between resets the period usage is the growth of the record, capped |
| `Gateways.PausedUntilReset` | internal/traffic/egress.go:130-142 | a gateway over its hard limit stays over it for the rest of its period |
| `Gateways.CalibrationExact` | internal/traffic/egress.go:306-338 | after calibration the estimate is the provider's figure |
| `Gateways.GatewaysOverHardLimit` | internal/traffic/egress.go:130-142 | exactly the enabled gateways with a hard stop whose estimate reached it |
| `Gateways.GatewayTracker.RecordGatewayHistory` | internal/traffic/gateway_history.go:59-81 | the row of the day, and the flag on the day of the last success after a gap |
| `Gateways.GatewayTracker.CountSample` | internal/traffic/egress.go:98-123 | a usable reading counts the deltas, flags what is uncertain and moves the baseline |
| `Gateways.GatewayTracker.SampleGateway` | internal/traffic/egress.go:69-124 | one turn of the sampling loop with its due, disabled and failed cases |
| `Gateways.GatewayTracker.SampleGateways` | internal/traffic/egress.go:51-126 | the loop over all gateways |
| `Gateways.GatewayTracker.CommitEgressChange` | internal/traffic/egress.go:226-259 | configures every gateway that stays or is added and forgets the others |
| `Gateways.GatewayTracker.ResetGateway` | internal/traffic/egress.go:284-297 | clears one gateway's period and keeps its baselines |
| `Firewall.VerdictIsUsers` | internal/traffic/accounting.go:24-30 | with only owned rules in the two chains, a packet meets only the operator's rules in their order |
| `Firewall.VerdictsUnchanged` | internal/traffic/accounting.go:139-227 | after any number of the commands every packet gets the same INPUT and OUTPUT verdict and the operator's rules are the same in the same order |
| `Firewall.KeptClean` | internal/traffic/accounting.go:164-176 | the kept rules fit their gateways, one per gateway |
| `Firewall.DropsLeave` | internal/traffic/accounting.go:164-176 | the deletions leave exactly the kept rules; without equal rules in place and with their counters |
| `Firewall.EqualRulesLoseCounters` | internal/traffic/accounting.go:164-176 | two equal rules with different counters, where the deletion removes the kept one's |
| `Firewall.DropsKeepLast` | internal/traffic/accounting.go:164-176 | after the deletions every kept rule is there with the counter of the last rule equal to it |
| `Firewall.CountersSurvive` | internal/traffic/accounting.go:164-176 | after a completed run a kept rule has its own counter if and only if that is the counter of the last rule equal to it |
| `Firewall.PlanSettles` | internal/traffic/accounting.go:139-227 | no command of a run is refused, and a completed run leaves one counter rule per enabled gateway and direction and one jump at the head of each parent chain, or nothing; distinct fitting rules keep place and counters, of equal ones the last counter stays |
| `Firewall.SecondRunChangesNothing` | internal/traffic/accounting.go:139-227 | no changing command is issued if and only if the table is settled |
| `Firewall.SettledMeaning` | internal/traffic/accounting.go:243-269 | in a settled chain every rule fits an enabled gateway, no two fit one, and every enabled gateway has one |
| `Firewall.NothingLeft` | internal/traffic/accounting.go:164-230 | with no gateway enabled no owned rule and no jump is left |
| `Firewall.Accounting.Iptables` | internal/traffic/accounting.go:135-138 | a command is carried out whole or changes nothing, and fails exactly by a fault or a refusal of the kernel |
| `Firewall.Accounting.AddChains` | internal/traffic/accounting.go:155-163 | creates the missing chains while a gateway is enabled |
| `Firewall.Accounting.DropRule` | internal/traffic/accounting.go:166-175 | one rule: kept, or deleted |
| `Firewall.Accounting.DropRules` | internal/traffic/accounting.go:165-176 | the loop over the rules issues the planned deletions, up to the first that fails, and then the plan was blocked |
| `Firewall.Accounting.AddRule` | internal/traffic/accounting.go:181-197 | one missing rule of one gateway |
| `Firewall.Accounting.AddRules` | internal/traffic/accounting.go:177-198 | the loop over the gateways |
| `Firewall.Accounting.FixJump` | internal/traffic/accounting.go:199-227 | leaves a single canonical jump at the head alone, and replaces anything else |
| `Firewall.Accounting.RepairRules` | internal/traffic/accounting.go:155-198 | chains and counter rules |
| `Firewall.Accounting.Repair` | internal/traffic/accounting.go:155-227 | the issued commands are a prefix of the plan, the whole plan on success, and fewer only when a fault or a refusal blocks it |
| `Firewall.Accounting.Sample` | internal/traffic/accounting.go:139-271 | an invalid gateway or a foreign rule issues no command; success means a settled table and, for exactly the enabled gateways, the counters of their rules; without faults it succeeds if and only if the gateways are valid, the table is readable and owned, and the boot ID can be read |
| `Firewall.CollectAll` | internal/traffic/accounting.go:243-270 | counters of both directions for every enabled gateway, and no failure in a settled table |
| `Firewall.Collect` | internal/traffic/accounting.go:243-264 | reads each fitting rule, and fails exactly when two fit one gateway |
| `Egress.OrderedIsStable` | internal/model/egress.go:50-54 | ordered by position, gateways of one position in configured order, none lost or added |
| `Egress.CandidatesDiffer` | internal/protocol/egress.go:137-146 | every try of the suffix search gives another name |
| `Egress.Search` | internal/protocol/egress.go:143-146 | the search ends, at the first candidate that is not reserved |
| `Egress.EveryNodeIsNamed` | internal/protocol/egress.go:92-151 | every derived node has a name |
| `Egress.NamesAreUnique` | internal/protocol/egress.go:90-151 | no two derived nodes share a name, and none has an enabled direct node's |
| `Egress.NameIsNoDirectName` | internal/protocol/egress.go:90-151 | a single derived node has no direct node's name |
| `Egress.NamesIgnoreOrder` | internal/protocol/egress.go:90-151 | names do not depend on the order of the nodes |
| `Egress.NamesIgnoreDisplayOrder` | internal/protocol/egress.go:90-151 | with unique IDs each node keeps its name under any reordering and repositioning of the gateways |
| `Egress.CountDirect` | internal/protocol/egress.go:93-119 | counts and reserves the enabled direct names |
| `Egress.CollectFor` | internal/protocol/egress.go:101-112 | the nodes of one gateway, their names counted |
| `Egress.Collect` | internal/protocol/egress.go:99-113 | the nodes of all gateways in display order |
| `Egress.FindConflicts` | internal/protocol/egress.go:120-127 | a name is reserved or put up for renaming exactly as it is unique or shared |
| `Egress.Rename` | internal/protocol/egress.go:135-149 | each conflict gets its first free name in the order of IDs, other nodes keep theirs |
| `Egress.RenameConflicts` | internal/protocol/egress.go:114-149 | conflicts found, sorted and renamed |
| `Egress.EgressNodes` | internal/protocol/egress.go:92-151 | the nodes in display order under the names the lemmas above are about |
| `Credentials.LinkedHasUser` | internal/protocol/egress.go:294-324 | an inbound whose credentials pass has a user for every gateway |
| `Credentials.UsersDiffer` | internal/protocol/egress.go:276-324 | in a valid configuration a gateway user name stands for one inbound and one gateway |
| `Credentials.NamesCanCollide` | internal/protocol/egress.go:20-23 | without that validation two pairs of IDs share a name |
| `Credentials.CheckCredentials` | internal/protocol/egress.go:283-324 | the loop over one inbound's credentials |
| `Credentials.CheckInbound` | internal/protocol/egress.go:277-325 | one inbound of the loop |
| `Credentials.ValidateInbounds` | internal/protocol/egress.go:276-325 | accepts exactly the configurations whose users all differ, whose credentials link every gateway once, and whose secrets differ per inbound |
| `Credentials.AcceptedUsersDiffer` | internal/protocol/egress.go:257-325 | what is accepted is what the routing theorems need |
| `Credentials.KeepCredentials` | internal/protocol/egress.go:162-173 | credentials of existing gateways stay, a duplicate is refused |
| `Credentials.AddCredentials` | internal/protocol/egress.go:174-192 | one new credential for every gateway without one |
| `Credentials.SyncInbound` | internal/protocol/egress.go:155-196 | both loops for one inbound |
| `Credentials.SyncLinks` | internal/protocol/egress.go:155-196 | afterwards the inbound is linked to exactly the gateways there are, and no credential in use was replaced |
| `Render.BuildInbound` | internal/protocol/driver.go:200-222 | the user list of an inbound: the direct user, then one per enabled gateway with a usable credential |
| `Render.CollectUsers` | internal/core/render.go:66-71 | a gateway's users over all enabled inbounds |
| `Render.RenderRules` | internal/core/render.go:66-90 | reject for a paused gateway, resolve and route for a running one, nothing without users |
| `Render.RenderGateways` | internal/core/render.go:47-95 | rules, endpoints and resolvers of all gateways by ID |
| `Render.Render` | internal/core/render.go:21-102 | the whole document |
| `Render.DirectUserGoesDirect` | internal/core/render.go:43-95 | evaluating the rules in order, a direct user reaches the direct exit |
| `Render.GatewayUserStays` | internal/core/render.go:61-95 | a running gateway's user reaches that gateway's endpoint, a paused one's is refused, none falls through |
| `Render.EveryUserIsRouted` | internal/core/render.go:21-95 | the same for whatever user a rendered inbound knows |
| `Render.TagIsOneEndpoint` | internal/core/render.go:72-84 | the tag names exactly the gateway's own endpoint, and none while it is paused |
| `Render.DisplayOrderIsNotRendered` | internal/core/render.go:25-30 | permuting gateways or positions renders the same document |
| `Transaction.Manager.Apply` | internal/core/manager.go:78-155 | check, backup, swap, restart and restoring, with a fault at any step |
| `Transaction.Server.MutateChange` | internal/server/server.go:776-831 | save, persist, compare, apply and undo, with a fault at any step |
| `Transaction.Server.ReconcileGatewayPauses` | internal/server/server.go:836-863 | re-renders when desired and applied pauses differ |
| `Transaction.RulesDetermine` | internal/core/render.go:61-95 | with an enabled inbound the rules show which gateways are enabled and paused |
| `Transaction.SameRulesSamePauses` | internal/server/server.go:808-813 | so configurations that render alike agree on the pauses |
| `Transaction.QuietSkip` | internal/server/server.go:808-813 | without an enabled inbound a skipped restart still leaves a rendering of the saved configuration, pausing at least what is recorded |
| `Transaction.StepInStep` | internal/server/server.go:776-863 | a failed transaction leaves saved configuration and core file unchanged, a successful one leaves them in step |
| `Transaction.AlwaysInStep` | internal/server/server.go:776-863 | over any run with any faults but failing rollbacks the core file is a rendering of the saved configuration |
| `Transaction.InStepIff` | internal/server/server.go:808-813 | a saved configuration is in step with the rendering of any other if and only if it renders the same with the recorded pauses, or without an enabled inbound with some that include them |
| `Transaction.FailedUndo` | internal/server/server.go:800-817 | after a failed transaction with any faults and failed rollbacks, of the saved configuration after either failure or of the core file, the two are in step if and only if the configuration left as saved renders what the core was left with |
| `Transaction.FailedPause` | internal/server/server.go:836-850 | the same for a failed change of the pauses |
| `Transaction.UndoCanFail` | internal/server/server.go:800-817 | for both failures a change after which they are apart |
| `Transaction.RecordedIff` | internal/server/server.go:808-820 | after a successful change the recorded pauses render the core file if and only if the core was restarted or they agree with the wanted ones |
| `Transaction.PausesCanDrift` | internal/server/server.go:808-820 | a saved gateway over its limit that is enabled while no inbound is, after which its pause is rendered but not recorded |
| `Calendar.PeriodsPartitionTime` | internal/traffic/network.go:47-60 | start <= now < next, no reset instant between, one period for all its moments, and the next period begins exactly at its end, for days 1 to 31, leap years and any fixed offset |
| `Calendar.ResetInMonth` | internal/traffic/tracker.go:555-559 | the clamped reset instant falls in its own local month |
| `Calendar.ResetsAscend` | internal/traffic/tracker.go:555-559 | later months have later resets, clamped days included |
| `Calendar.NextIsAhead` | internal/traffic/tracker.go:514-525 | the next reset is the first one strictly after the moment |
| `Calendar.PeriodIs` | internal/traffic/tracker.go:530-537 | the previous reset is that of the month before, not a month subtracted from a date |

## Left out

- Network.SampleMonotone: the sums over the database are arbitrary values here, related to the traffic only in Billing; RX and TX minus a baseline are unbounded, not wrapped at 64 bits.
- EntryTracking.EntryTracker.SampleNetwork: the SHA-256 name of a source is an arbitrary new name, and persisting after the sample is the business of History.
- EntryQuota.EstimateIsLaterGrowth: needs core samples in order of the panel's own clock; samples that left the retention window are excepted, as the code drops them.
- EntryLife.OutageKeepsStopAlways: is about one billing period with vnStat quiet; what a new period or a new reading changes is in Network and EntryQuota.
- SourceTable.TableNeverOverlaps: needs the clocks in order and names of sources never used before; what an older start does is Billing.NewSourceOverlap. The rows of the baseline are modelled in Billing and Switches only.
- SourceTable.RunningBillExact: that the billed sources' own buckets are exact and their baselines read in time is assumed of the store; what vnStat counted is not part of the run.
- Network.SwitchCountsOnce: is about one switch; the exact period bill over several sources is SourceTable.RunningBillExact.
- Vnstat.SumExact: the true traffic is a function of whole seconds; sub-second times are not modelled.
- History.ExactlyOnce: is about one core generation; across generations History.RunConsistent adds the counters each left behind. The JSON mirror, which is written after the commit and never read back once the database exists, is not modelled.
- History.HistoryTracker.ApplySample: the zone is a fixed offset, and running without a database is not modelled.
- Apps.Recorder.RecordConnections: ClassifyConnection is an arbitrary function; the subtraction of saved application rows has the shape of History.SubtractRows and is not repeated.
- Apps.AppsAddUpToProxy: takes the connection list and the totals of one reading as consistent.
- TailFold.SaveConserves: is about one day or hour; the 400-day retention and the clearing of all rows are not modelled.
- Gateways.GatewayTracker.SampleGateways: what the firewall read is a parameter; health is not modelled, and persisting is the machine of Gateways.CrashesCountOnce.
- Gateways.CrashesCountOnce: the record is what was entered; that a commit moves pending rows into it exactly once is modelled for the proxy rows in History.
- Gateways.GatewayTracker.CommitEgressChange: the sample that follows it is Gateways.GatewayTracker.SampleGateways.
- Firewall.Accounting.Sample: commands of other programs in between are not modelled, nor counters that grow while it runs; a rule is a record of the arguments the code looks at and the rest as one text.
- Firewall.VerdictsUnchanged: an operator's rule is its text with an arbitrary effect per packet, so rules with internal state are not modelled.
- Egress.EgressNodes: the location text and the hash suffix are parameters; unique IDs are required, as validation ensures.
- Credentials.ValidateInbounds: covers the checks on inbounds; key, address and form checks are one arbitrary predicate, and the uniqueness of gateway IDs, slots and peers is a precondition where it is used.
- Render.Render: stops at the document's inbounds, rules, endpoints and resolvers; JSON encoding, TLS options and the outbound strategy are fixed text.
- Transaction.AlwaysInStep: a crash between saving the configuration and applying it is not modelled.
- Transaction.Manager.Apply: timeouts and the temporary file are faults, not state.
- Calendar.PeriodsPartitionTime: daylight saving time is not modelled.
- HTTP handlers, sessions, health checks, system information, updates, subscription text and the web page: input and output around this core.
- Conversion of advertised amounts to bytes with floating point and rationals: the stop point is a given number.
- Parsing of vnStat's JSON and of iptables-save text, and the application tables: these would add easy members only.
- The queries that fill history pages: they read what is modelled here.
