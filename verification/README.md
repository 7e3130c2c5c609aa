# solfleet, verified

A Dafny model of solfleet, the operator tool for fleets of Solana nodes, with
proofs of what its three hard parts promise:

* **DNS failover.** A pool is a name with one A record per healthy member. The
  watch loop and manual ejects and restores change it through one of three
  drivers: a dict of sets, a list of records with ids (Cloudflare), and record
  sets that vanish when empty (Route53). All three refine one specification, a
  set of addresses per name and a set of TXT markers, and every run of the state
  machine is reasoned about there.
* **Upgrades and provisioning over an unreliable remote.** Shell commands are a
  datatype with a semantics on a small world: the build host with its checkouts
  and cache, the operator's scratch directory, and the node with its files, its
  service and its devices. A runner consults an oracle that may fail any command,
  leave anything at the target of a failed copy, stop a chained `&&` after any
  part, or report a failure for a command that took effect. Safety is stated for
  every oracle over the trace of commands.
* **Leader windows.** The cursor sweep over runs of leader slots against the
  declarative maximal leader-free intervals. A slot lasts 0.4 s, so a window of
  `n` slots is long enough for `m` minutes when `2n >= 5 * 60 * m`, in integers.

## Layout

| file | models |
|---|---|
| `Text.dfy` | options, string order, sorting |
| `Config.dfy`, `Safety.dfy`, `Audit.dfy` | fleet validators and lookups, the gate, the log |
| `Probe.dfy` | node and cluster probe, vote map and vote scan |
| `Zone.dfy`, `Dns.dfy` | the zone specification and the three drivers |
| `Watch.dfy`, `Overrides.dfy`, `Failover.dfy` | one pass, one override, and what every run keeps |
| `Serving.dfy` | what a pass serves, told by the fields of the fleet and the probes |
| `Schedule.dfy`, `Catchup.dfy` | leader windows, the catch-up loop |
| `Remote.dfy`, `Executor.dfy`, `Layout.dfy`, `Distribution.dfy` | commands, node steps, paths, verified copying |
| `Builder.dfy`, `StaleCache.dfy` | the build cache, and what a changed configuration finds in it |
| `Operations.dfy`, `Provision.dfy`, `History.dfy` | restarts and upgrades, provisioning, any history of both |

Where the source changes things step by step - the drivers, the log, the runner,
the loops - the model is a class or a method with a loop, proved against
functions on values; the laws are lemmas about those functions. For the remote
part the method contracts speak of the stretch of the trace a call adds:
`Acts` is the sequence of its commands that are not reads, and predicates such as
`AlwaysLive` and `MkfsGuarded` hold of every entry of the stretch.

`Operations.ExecuteUpgrade` reads best from the parts of `UpgradeCall`: `UpgradeGated`
(what decides), `DeployTold` (where it stopped, as its commands answered), `DeployKept`
(stopped: `StagedOnly` throughout; run: `CycleActs` in order, `Live` throughout,
`Lockstep` at the end), `SwapComplete`, `Judged`, and `CarriedOut` (what is certain
when nothing goes wrong). `Provision.ProvisionNode` has `ProvisionGated`,
`SomeSoftwareRun`, `ProvisionTrace`, `ProvisionResultTrue` and `Provided` in the
same roles in `ProvisionCall` and `ProvisionKept`.

Small functions that code and contracts share - a version tag, the eject rules, the gate,
a parsed line - have lemmas that say what they compute in plain fields and literals:
`Serving.PassServesIff`, `Operations.VersionMatchesIff`,
`Builder.AgaveStepsInOrder`, `Provision.PreflightIff`, `Safety.GateReasons` and others.

## Where the code differs from its documentation

Each of these promises fails for some input; the lemma named gives the exact
condition under which it holds.

* The module comment of `dns.py` speaks of a refusal to touch unmarked records.
  There is none: the marker is created before the first change (`watch.py:95`,
  `operations.py:495`). `Failover.PassTouchesIff` and `UnmarkedOverriddenIff`
  say when such a record is changed, `UnmarkedRecordIsChanged` shows one. What
  holds instead is `TouchedCarriesMarker`.
* The upgrade plan announces binary, plugin and marker swapped atomically. Each
  file is replaced atomically; the set is a chain that may stop after any part
  (`Executor.EveryStopOccurs`), so it is all or nothing under every outcome exactly
  when it is a single file (`Executor.SwapIsAtomicIff`), which the three agave
  binaries never are (`Operations.AgaveSetIsNotAtomic`). The marker is a separate
  command that runs even after a failed swap (`Operations.SwapAndMark`).
* Nor does a failed swap keep the service from being brought up again: upgrades and
  provisioning launch it on a mixed set exactly when the swap broke off between its
  first and its last move - provisioning only with the keys in place
  (`Operations.DeployLaunchesMixedIff`, `Provision.ProvisionLaunchesMixedIff`; a run
  is built by `Operations.LaunchMixed`).
* The plan line also says that `service.binary` is swapped. What is swapped in has
  the fixed name `agave-validator` (`Layout.SwapsTheBinaryIff`).
* "Never empty" holds at the end of every operation. Inside a pass removals run
  before additions, and `Failover.IntermediateStates` gives the exact case in
  which the name is empty in between.
* A manual eject lasts until the next pass (`Failover.EjectIsUndoneIff`).
* Provisioning has no check for `geyser_lib`: a built plugin is then silently
  skipped (`Provision.PluginSkippedIff`).
* The module comment of `provision.py` calls provisioning idempotent. Repeating a run
  that went through fails exactly when a block device is configured for formatting
  (`Provision.RerunFitsIff`).
* Formatting is announced as refused unless the device is empty. A disk probe that
  fails without output reads as an empty device, so some outcome gets a device in use
  formatted exactly when it is a block device configured and acknowledged for it
  (`Provision.FormatsDeviceInUseIff`, and `FormatInUse` for the run).
* The disk floor does not see a `df` that exits non-zero or prints no percentage
  (`Executor.FloorPassesIff`, `FullDiskPasses`).
* The artifact cache is keyed by version alone, and a clone is only made where there
  is none. Over a change of configuration a hit is right exactly as
  `StaleCache.ChangedConfigIff` says, a forced rebuild exactly as `ForcedRebuildIff`
  says: it can check out another ref, but an old clone keeps its repository.
* The catch-up wait has no timeout without a positive interval
  (`Catchup.NeverEndsIff`).

## Model

| member | source | states |
|---|---|---|
| `Dns.InMemoryDnsDriver.AddMember` | src/solfleet/dns.py:56-58 | Adding to the dict of sets is set insertion on that name; every other name and all markers stay. |
| `Dns.InMemoryDnsDriver.RemoveMember` | src/solfleet/dns.py:60-62 | Removing is set difference on that name, also for a name that has no entry. |
| `Dns.CloudflareDriver.ListMembers` | src/solfleet/dns.py:97-98 | The listed addresses are exactly the set the record list holds for the name, duplicates collapsed. |
| `Dns.CloudflareDriver.AddMember` | src/solfleet/dns.py:100-105 | On a list of records with ids, adding is set insertion: nothing is posted when some record already holds the address. |
| `Dns.CloudflareDriver.RemoveMember` | src/solfleet/dns.py:107-111 | The delete loop clears every duplicate that holds the address and no other record, so it is set difference. |
| `Dns.CloudflareDriver.EnsureMarker` | src/solfleet/dns.py:116-122 | The TXT marker is there afterwards and no A record has changed. |
| `Dns.Route53Driver.AddMember` | src/solfleet/dns.py:175-178 | UPSERT of the enlarged record set is set insertion; the name has a record set exactly when its set is non-empty. |
| `Dns.Route53Driver.RemoveMember` | src/solfleet/dns.py:180-183 | UPSERT of what remains, or DELETE of the record set when nothing remains, is set difference. |
| `Dns.Route53Driver.EnsureMarker` | src/solfleet/dns.py:188-196 | The marker TXT set is there afterwards; A record sets are untouched. |
| `Dns.Route53KeysMatch` | src/solfleet/dns.py:40-41 | With trailing dots dropped, two record names share their address set exactly when they share their marker. |
| `Dns.KeysMatch` | src/solfleet/dns.py:32-41 | For each of the three drivers, two records with the same owner name have the same marker and the other way round. |
| `Dns.FqdnIs` | src/solfleet/dns.py:148 | The Route53 name of a record is the record with its trailing dots replaced by one. |
| `Dns.Driver.AddMember` | src/solfleet/dns.py:32-37 | Whichever driver is behind it, one call is one step of the set-per-name specification. |
| `Dns.Driver.RemoveMember` | src/solfleet/dns.py:32-37 | The same for a removal. |
| `Zones.RunFrame` | src/solfleet/dns.py:32-37 | Steps on other owner names never change the address set of a name. |
| `Zones.MarkersGrow` | src/solfleet/dns.py:37 | No step ever takes a marker away. |
| `Watch.EjectedIff` | src/solfleet/watch.py:27-36 | A probed node breaks a rule of a pool exactly on one of the three configured conditions, told by what the node and the reference answered. |
| `Watch.ShouldEjectIff` | src/solfleet/watch.py:27-36 | A member is ejected exactly when the fields of its status break a rule, or it has no status and the pool ejects unhealthy members. |
| `Serving.StatusIsLast` | src/solfleet/watch.py:56-57 | The status of a name is that of the last node probed under it, and every probed name has one. |
| `Serving.HostIsLast` | src/solfleet/watch.py:39-40 | The address of a name is that of the last node of that name in the fleet. |
| `Serving.PassServesIff` | src/solfleet/watch.py:43-99 | What a record holds after an executed pass, for any fleet, told by fields: an address is in it exactly when the last pool of the record to decide over it has a member there whose last probed status breaks none of its three settings, or no pool decides and it was there before. |
| `Watch.PoolRowIs` | src/solfleet/watch.py:74-104 | The row a pool is planned to log: named after the loop, about the record of the pool, and there exactly when something served is kept or something is changed. |
| `Watch.WatchPool` | src/solfleet/watch.py:59-104 | One pool: the driver calls, the audit rows and the report are exactly the plan for the probes, in order; marker, removals, additions. |
| `Watch.WatchOnce` | src/solfleet/watch.py:43-106 | One pass over all pools performs the planned driver calls, rows and reports, each pool planned against the zone the pools before it left. |
| `Watch.ValidFleetIsServable` | src/solfleet/config.py:211-225 | The fleet validators guarantee that a pass never meets a member without an address. |
| `Failover.PoolPassResult` | src/solfleet/watch.py:60-99 | A pass drives a pool with healthy members to (current minus managed) plus desired, and leaves it alone without healthy members or in a dry run. |
| `Failover.IntermediateStates` | src/solfleet/watch.py:85-99 | Between the driver calls of a pool the set is empty only right after the last removal, and exactly when all current addresses are managed and none is desired. |
| `Failover.PassStaysServed` | src/solfleet/watch.py:59-99 | After a pass no name that had addresses is empty, pools sharing a record included. |
| `Failover.PassResult` | src/solfleet/watch.py:59-99 | With one pool per record, a full pass gives every pool its own reconciled set. |
| `Failover.PassMembershipIff` | src/solfleet/watch.py:59-99 | With any number of pools on a record, an address is in it after a pass exactly when the last pool that manages it and has something to serve wants it, or no such pool exists and it was there before. |
| `Failover.UnmanagedUntouched` | src/solfleet/watch.py:85-99 | Addresses that belong to no pool member are neither added nor removed. |
| `Failover.SecondPassIsQuiet` | src/solfleet/watch.py:90-93 | With one pool per record, a second pass on the same probes makes no driver call. |
| `Failover.PassIsWellMarked` | src/solfleet/watch.py:95-99 | Every change in a pass comes after the marker call for the same record. |
| `Failover.PassIsAudited` | src/solfleet/watch.py:95-104 | The audit rows of a pass, read in order, are its driver calls: each change is covered by the row that names its address, and no row claims more. |
| `Failover.HistoryIsAudited` | src/solfleet/operations.py:494-506 | Replaying the log rows of any mix of passes and overrides gives every driver call that was made, in order. |
| `Overrides.OverrideAllowedIff` | src/solfleet/operations.py:479-491 | A manual override is blocked exactly when it is an eject of the only address of the record. |
| `Overrides.OverrideRowIs` | src/solfleet/operations.py:494-506 | The row of a pool: operation and mode by name, refused exactly when the address is the only one and is to go. |
| `Overrides.PoolsForNodeHas` | src/solfleet/operations.py:432-438 | The pools of an override are exactly those that list the node and, when one is asked for, keep that record. |
| `Overrides.PoolsForNodeInOrder` | src/solfleet/operations.py:432-438 | They come in the order of the fleet file. |
| `Overrides.OverridePool` | src/solfleet/operations.py:476-506 | One pool of an override: driver calls, audit row and reported members are the planned ones. |
| `Overrides.DnsOverride` | src/solfleet/operations.py:463-507 | Unknown node and node in no pool are told apart and touch nothing; otherwise one row and one entry per pool, each with the decision and the members left, and the planned calls. |
| `Failover.OverrideResult` | src/solfleet/operations.py:476-500 | A restore adds the address to every listed record, an eject removes it unless it is the last one; all other names stay. |
| `Failover.RestoreUndoesEject` | src/solfleet/operations.py:510-520 | Eject then restore brings back every set that held the address. |
| `Failover.DryOverrideIsQuiet` | src/solfleet/operations.py:494-500 | Without confirmation no driver call is made. |
| `Failover.EjectOfHealthyNodeIsUndone` | src/solfleet/watch.py:85-99 | In particular a node that is not to be ejected is back after the next pass, unless a later pool of the record decides over its address. |
| `Failover.EjectIsUndoneIff` | src/solfleet/watch.py:85-99 | After a manual eject and the next executed pass the address is in the record exactly when the last pool of the record to have a say wants it, or none has one and the eject was refused; shared records and repeated node names included. |
| `Failover.NeverEmptied` | src/solfleet/watch.py:59-99 | Over any sequence of passes, ejects and restores with arbitrary probes, a name with addresses is never left empty after an operation. |
| `Failover.TouchedCarriesMarker` | src/solfleet/operations.py:494-499 | After any number of driver calls of such a sequence, a listed record that any add or remove has reached carries its own marker, whatever spelling it was reached under; no other listed record has changed. |
| `Failover.PassTouchesIff` | src/solfleet/dns.py:10-13 | The promised refusal of unmarked records is not there: with or without a marker, and however many pools share it, a pass adds to or removes from a record exactly when it is executed and some pool of the record is not settled in the zone it starts from. |
| `Failover.UnmarkedOverriddenIff` | src/solfleet/operations.py:494-500 | The same for a manual override: exactly when confirmed, not refused, and membership differs. |
| `Failover.UnmarkedRecordIsChanged` | src/solfleet/watch.py:85-99 | A concrete record without a marker that loses its address and gains another. |
| `Failover.WatchLoop` | src/solfleet/watch.py:109-129 | The loop plays exactly the rounds asked for as one such sequence: zone, driver calls and audit rows. |
| `Config.LookupsAgreeIff` | src/solfleet/config.py:227-232 | First match (manual overrides) and last match (watch loop) of a node name agree exactly when those two nodes have the same host. |
| `Config.UniqueNamesLookupsAgree` | src/solfleet/watch.py:39-40 | With fleet-wide unique names the two lookups never differ. |
| `Config.FindNodeIsFirst` | src/solfleet/config.py:227-232 | The lookup returns the first node of that name in file order, and finds one whenever there is one. |
| `Probe.VoteMap` | src/solfleet/probe.py:153-165 | The dict has an identity exactly when it occurs, and holds its last account, the delinquent group winning. |
| `Probe.LatestCreditsIsNewest` | src/solfleet/probe.py:160-163 | The credits are those of the newest epoch listed, and 0 without one. |
| `Probe.ScanVote` | src/solfleet/voting.py:48-54 | The linear scan ends on the same account, and reports delinquency exactly by occurrence in the delinquent group. |
| `Probe.VoteViewsAgree` | src/solfleet/probe.py:153-165 | Both views agree for every identity and every pair of account lists, repeated identities included. |
| `Probe.ProbeNode` | src/solfleet/probe.py:87-130 | Reachability, health, version, slot and lag of a status in terms of the three answers; the vote fields depend on the reference alone. |
| `Probe.ProbeCluster` | src/solfleet/probe.py:133-177 | Every node is reported in order against the same reference; delinquency, credits and last vote are what the reference says of its identity. |
| `Schedule.Runs` | src/solfleet/schedule.py:23-32 | The runs concatenate to the input, each is consecutive, and no run continues the one before. |
| `Schedule.GroupingUnique` | src/solfleet/schedule.py:23-32 | These three facts determine the runs. |
| `Schedule.RunsAreMaximal` | src/solfleet/schedule.py:23-32 | On sorted distinct slots neither neighbour of a run is in the schedule. |
| `Schedule.FreeWindows` | src/solfleet/schedule.py:35-55 | The cursor sweep over runs finds what a sweep slot by slot finds, for any list. |
| `Schedule.KeptAreMaximalIntervals` | src/solfleet/schedule.py:35-55 | For any sorted schedule, duplicates included, the kept windows are exactly the maximal leader-free intervals that are long enough. |
| `Schedule.KeptAreOrdered` | src/solfleet/schedule.py:35-55 | They are ordered and separated by leader slots. |
| `Schedule.FreeStretchInsideOne` | src/solfleet/schedule.py:35-55 | Any long enough leader-free stretch lies inside exactly one kept window. |
| `Schedule.GapsAndSlotsTile` | src/solfleet/schedule.py:35-46 | Before filtering, gap lengths plus the number of distinct leader slots add up to the stretch swept. |
| `Schedule.LeaderWindows` | src/solfleet/schedule.py:58-91 | Next leader slot, windows and safe-now verdict against the declarative schedule; at the end of the epoch safe-now can hold with no window. |
| `Schedule.UpcomingIsSortedSchedule` | src/solfleet/schedule.py:71-75 | The slots considered are the sorted leader slots strictly after the current one. |
| `Schedule.UpcomingKeepsMultiplicity` | src/solfleet/schedule.py:71-75 | A slot listed several times is there as often. |
| `Schedule.CurrentSlotIgnored` | src/solfleet/schedule.py:74 | Leading in the current slot changes nothing in the view. |
| `Safety.GateTruthful` | src/solfleet/safety.py:88-113 | Allowed exactly when every check passes, in both modes alike. |
| `Safety.GateReasons` | src/solfleet/safety.py:88-113 | The reasons are the messages of exactly the failed checks, in order; a dry run puts a line of its own first. |
| `Safety.MoreChecksNarrow` | src/solfleet/safety.py:88-113 | What passes a longer list of checks passes the shorter one in the other mode. |
| `Audit.AuditLog.Record` | src/solfleet/audit.py:42-66 | Recording appends one row and keeps all others. |
| `Audit.RecentIsFirstOfReversed` | src/solfleet/audit.py:68-89 | With a limit of n >= 0 a reader gets the first n of the filtered rows reversed. |
| `Audit.RecentAfterRecord` | src/solfleet/audit.py:42-89 | A fresh row comes first for readers of its node and is invisible to others. |
| `Catchup.WaitForCatchup` | src/solfleet/operations.py:73-91 | Caught up exactly when a sample polled within the timeout is healthy with a known lag of at most max_lag, at the first such poll and with that sample; otherwise it gives up after floor(timeout / interval) + 1 polls with the last sample. |
| `Catchup.NeverEndsIff` | src/solfleet/operations.py:84-91 | The loop never ends exactly when the interval is not positive, the timeout not negative, and no sample is ever healthy with a known lag of at most max_lag. |
| `Builder.BuildArtifacts` | src/solfleet/builder.py:131-164 | Cache test, early exit and result as a function of the outcomes and as the commands tell it; only the build host is touched; a sound cache stays sound, and from one nothing but a mishap fails. |
| `Builder.AgaveStepsInOrder` | src/solfleet/builder.py:81-95 | The steps of a version: clone of the configured repository, fetch, the one checkout, install, copies, in this order; what is checked out starts with a v and is the version, or v and the version. |
| `Builder.GeyserStepsInOrder` | src/solfleet/builder.py:97-105 | Without a plugin repository no plugin step; with one: clone of it, fetch, a checkout exactly of the configured ref and only if there is one, build, copy last. |
| `Builder.TagForgetsV` | src/solfleet/builder.py:70-71 | A version with and without its leading v checks out the same ref. |
| `Builder.ArtifactNamesAre` | src/solfleet/builder.py:74-78 | The artifact set by name: the three agave binaries, and the plugin exactly with a repository for it. |
| `Builder.RunBuild` | src/solfleet/builder.py:148-158 | The loop over the build steps stops at the first failure and does nothing more. |
| `Builder.Collect` | src/solfleet/builder.py:117-123 | One artifact per name in order; each digest is what its command answered, and that of the cached file. |
| `Builder.BuildsKeepSound` | src/solfleet/builder.py:131-164 | From an empty build host, any sequence of failing, forced or broken-off builds leaves every cached file as a build would produce it, and the last file of a version only after a run through all steps. |
| `Builder.HitAgreesWithRebuild` | src/solfleet/builder.py:126-146 | A cache hit implies an earlier run in which every step took effect, and each file equals what a fresh rebuild produces. |
| `Builder.CompletedRunHits` | src/solfleet/builder.py:81-107 | A run of steps that all succeed, from any cache on a host whose clones fit the configuration, leaves every artifact of the version in the cache as a build is meant to produce it. |
| `StaleCache.ChangedConfigIff` | src/solfleet/builder.py:142-146 | The cache is keyed by version alone: whatever the tools compute and whatever was built before, hits stay right over a change of configuration exactly when the change starts building the plugin or keeps both repositories and the plugin ref. |
| `StaleCache.StaleHit` | src/solfleet/config.py:119-124 | A concrete stale hit: another plugin repository, the same ref. |
| `StaleCache.CompletedRunUsesClones` | src/solfleet/builder.py:91-100 | A clone is only made where there is none: a completed run caches files from the clones that are there, whatever repositories are configured. |
| `StaleCache.ForcedRebuildIff` | src/solfleet/builder.py:85-105 | So running the steps again, forced or not, is right over a change of configuration exactly when the agave repository is kept and, if both configurations build the plugin, its repository is kept and the new one names a ref or the old one named none. |
| `Builder.BootstrapBuilder` | src/solfleet/builder.py:193-243 | Only a confirmed call on a reachable builder issues the bootstrap, exactly once, and reports how it ended; otherwise one read; one audit row per known builder. |
| `Layout.DestinationsAre` | src/solfleet/operations.py:270-278 | Where an artifact goes, for every spelling of the unit binary: next to it, in the root or in /usr/local/bin; the plugin to geyser_lib; nothing else has a place. |
| `Layout.PathsDistinctIff` | src/solfleet/operations.py:270-278 | Destinations, staged names and marker of an artifact set are pairwise distinct exactly when the configured plugin and marker paths stay clear: the binaries never collide among themselves. |
| `Layout.SwapsTheBinaryIff` | src/solfleet/operations.py:275-277 | The plan line announces service.binary: what is swapped in lies there exactly when that is dir/agave-validator with a plain dir. |
| `Layout.OtherBinaryIsNotSwapped` | src/solfleet/operations.py:222 | A concrete unit binary that no swap ever replaces. |
| `Executor.Inspect` | src/solfleet/executor.py:162-170 | A look issues three or four reads, changes nothing, and reports what they answered. |
| `Executor.ValueIs` | src/solfleet/executor.py:101-105 | A unit property is what stands on the last line for it. |
| `Executor.FloorPassesIff` | src/solfleet/safety.py:59-63 | The disk floor lets a node pass exactly when no floor is set, df exits non-zero, or no line it printed is over the floor. |
| `Executor.FullDiskPasses` | src/solfleet/operations.py:94-100 | Two answers of df that hide a full disk from every floor. |
| `Executor.AtomicSwap` | src/solfleet/executor.py:211-223 | How far the `&&` chain gets is a function of the outcomes; the commands issued are a prefix of move-then-chmod per file, the node passes only through states after a prefix of the moves, and success means exactly that every part exited 0. |
| `Executor.SwapIsPrefix` | src/solfleet/executor.py:211-223 | With distinct paths the first k destinations hold what was staged for them and every other path is as before. |
| `Executor.EveryStopOccurs` | src/solfleet/executor.py:211-223 | A stop after each number of moves short of all really occurs: losing that one move is enough. |
| `Executor.SwapIsAtomicIff` | src/solfleet/operations.py:222 | The swap is announced as atomic: a set of files that bring something new is replaced all or nothing under every outcome exactly when it is a single file. |
| `Distribution.PlaceOne` | src/solfleet/operations.py:294-302 | One artifact: pull, push, digest, each reported as answered; only its staged name is written, and a match means the staged bytes have the recorded digest. |
| `Distribution.GoodIff` | src/solfleet/operations.py:294-307 | An artifact with a place is good exactly when pull, push and digest all exit 0 and the digest printed is the recorded one. |
| `Distribution.Distribute` | src/solfleet/operations.py:281-307 | Only staged names are written at any moment; every artifact is reported in order as its three commands answered, skipped exactly without a destination; ok exactly when all others are copied and verified; with all digests on record nothing but a mishap fails. |
| `Distribution.GoodSwapsAreAll` | src/solfleet/operations.py:385-386 | After a good distribution the swap list has every name that has a destination. |
| `Distribution.SwapsAre` | src/solfleet/operations.py:385-386 | Each move of the list is from the staged name to the destination of an artifact, executable exactly for the agave binaries. |
| `Distribution.SwapsForDistinct` | src/solfleet/operations.py:385-386 | On distinct paths no move of the list disturbs another. |
| `Distribution.LiveDuringSwap` | src/solfleet/operations.py:385-404 | After any number of moves every live file holds its former bytes or bytes with a recorded digest. |
| `Operations.Prepare` | src/solfleet/operations.py:366-383 | Build and distribution as their commands tell; staged names only are written; good exactly when the build and every copy are, and from a sound cache nothing but a mishap fails. |
| `Operations.SwapAndMark` | src/solfleet/operations.py:388-401 | Swap and marker are two separate commands: the marker is written even after a failed swap. |
| `Operations.CycleValidator` | src/solfleet/operations.py:389-396 | A validator is swapped first and then asked to exit; it is never stopped or started. |
| `Operations.CycleRpc` | src/solfleet/operations.py:397-403 | On an RPC node the stop precedes every move and the start follows them all, whatever fails. |
| `Operations.Deploy` | src/solfleet/operations.py:366-403 | Build, copy and cycle: stopped exactly where a command failed without touching the live node, or carried through with no unverified bytes live at any command; from a sound cache and with distinct paths only a mishap stops it. |
| `Operations.LockstepWhenReplaced` | src/solfleet/operations.py:385-404 | After k moves the artifacts of these k moves are live with their recorded digests, all others are as before. |
| `Operations.CompleteSwapInstalls` | src/solfleet/operations.py:385-404 | A swap in step that got to its end leaves every artifact that has a place on the node live with its recorded digest. |
| `Operations.AgaveSetIsNotAtomic` | src/solfleet/operations.py:222 | In particular the agave set of any configuration on paths apart never is replaced atomically when it is all new. |
| `Operations.MixedIff` | src/solfleet/operations.py:385-404 | When none of the new digests is live before, the node holds new and old artifacts side by side exactly when the swap broke off between its first and its last move. |
| `Operations.DeployLaunchesMixedIff` | src/solfleet/operations.py:388-403 | An upgrade brings the service up on such a mixed set exactly when the swap broke off in between: a failed swap keeps neither the safe exit nor the start from being issued. |
| `Operations.LiveLaunchesMixedIff` | src/solfleet/operations.py:385-403 | Wherever a swap in step is followed by a launch on the files it left, the launch is on a mixed set exactly when the swap broke off in between. |
| `Operations.LaunchMixed` | src/solfleet/operations.py:389-403 | For any two or more staged files and either role: outcomes under which the service is brought up with exactly the first file replaced. |
| `Operations.InstalledIsFresh` | src/solfleet/builder.py:110-123 | From a sound cache these digests are those of a fresh build of the version. |
| `Operations.AllowedUpgrade` | src/solfleet/operations.py:228-267 | Whatever execution allows the dry-run plan allows, and then every artifact has a place on the node. |
| `Operations.PlanAllowedIff` | src/solfleet/operations.py:228-267 | A plan is allowed exactly when the rules of the cluster, its own before the defaults, allow the version, a builder of the fleet is configured, and a plugin that is built has a path. |
| `Operations.UpgradeAllowedIff` | src/solfleet/operations.py:228-239 | An upgrade is allowed exactly when that plan is, the unit answered and the disk floor is unset or no line of a successful df is over it. |
| `Operations.UpgradeReasons` | src/solfleet/operations.py:228-239 | Each reason of a decision is given exactly when what it names is the case. |
| `Operations.RestartAllowedIff` | src/solfleet/operations.py:135-142 | A restart is allowed exactly when the unit answered, its last ActiveState line says active, and the disk floor is unset or no line of a successful df is over it. |
| `Operations.RestartReasons` | src/solfleet/operations.py:135-142 | The same for a restart. |
| `Operations.VersionMatchesIff` | src/solfleet/operations.py:310-315 | A reported version matches exactly when it is not empty and, past its leading v, begins with what the target is past its own. |
| `Operations.ExecuteUpgrade` | src/solfleet/operations.py:327-426 | The whole call: gated by what the preflight saw, read-only when held back, stopped exactly where its commands failed and then clean, live-safe and role-ordered when run; allowed, from a sound cache and with no mishap it is carried out - set installed as a fresh build has it, marker written, service up; the verdict on the version and the catch-up is told by the words of the last look and the samples; one audit row on every path. |
| `Operations.RestartNode` | src/solfleet/operations.py:103-192 | Held back: reads only. Executed: the node was seen active, only the service is touched, by safe exit on a validator and stop then start on an RPC node; with no mishap the cycle is good and the service active; one audit row. |
| `Provision.PreflightIff` | src/solfleet/provision.py:97-121 | The host facts pass exactly when the command exits 0 and the last arch, cores and ram lines say x86_64, at least 8 and at least 8 GiB. |
| `Provision.AllowedProvision` | src/solfleet/provision.py:283-291 | Allowed exactly when the host facts pass, the cluster names a builder and the builder exists. |
| `Provision.SetupDisk` | src/solfleet/provision.py:151-198 | The commands and result of one disk as a function of the answer of its probe: mkfs is issued, device in use or not, exactly for a block device that is configured and acknowledged for formatting and whose probe printed nothing; live files and service untouched; with no mishap exactly a disk that fits is set up. |
| `Provision.SetupDisks` | src/solfleet/provision.py:312-313 | Every disk is handled, also after one has failed; every mkfs is configured, acknowledged and follows an empty probe. |
| `Provision.FormatsDeviceInUseIff` | src/solfleet/provision.py:164-184 | The refusal to format a device that is not empty: some runner gets a device in use formatted exactly when it is a block device configured and acknowledged for formatting. |
| `Provision.FormatInUse` | src/solfleet/provision.py:166-184 | For every such device a run in which mkfs is issued: the probe fails before it prints anything. |
| `Provision.FormattedOnce` | src/solfleet/provision.py:151-198 | In a history of truthful probes no device is formatted again after a format that took effect. |
| `Provision.RerunFitsIff` | src/solfleet/provision.py:3-7 | Provisioning is announced as idempotent: a run that set up every disk can be repeated exactly when no block device is configured for formatting. |
| `Provision.ProvisionRuns` | src/solfleet/provision.py:259-354 | Any sequence of provision calls on a host with truthful probes is such a history. |
| `Provision.ProvisionReasons` | src/solfleet/provision.py:283-291 | Each reason of a decision is given exactly when what it names is the case. |
| `Provision.PluginSkippedIff` | src/solfleet/provision.py:283-289 | What provisioning swaps in falls short of the artifact set exactly when a plugin is built and geyser_lib is unset. |
| `Provision.InstallSoftware` | src/solfleet/provision.py:317-329 | Build, copy, swap: good exactly when the build and every copy answered so, nothing unverified goes live, a complete swap leaves all placed artifacts live; from a sound cache only a mishap fails. |
| `Provision.StartHasKeys` | src/solfleet/provision.py:333-345 | A start that was issued found the identity key on the host and, on a validator without no_voting, a vote key that is configured and there; over a reliable connection it is issued exactly then. |
| `Provision.UnitKeysStart` | src/solfleet/provision.py:330-347 | The unit is installed first and the service started exactly when the identity key, and the vote key of a voting node, are in place. |
| `Provision.CheckKeys` | src/solfleet/provision.py:213-235 | A key reported present is there, and over a reliable connection one that is there is reported; the vote key is asked for exactly on a validator without no_voting that has its identity key. |
| `Provision.ProvisionHost` | src/solfleet/provision.py:309-354 | Past the gate: stages in order, the later ones exactly after all disks, the build and the verified copy are good; with no mishap it stops short exactly when a disk does not fit or a key is missing, and succeeds exactly when the node then catches up. |
| `Provision.ProvisionLaunchesMixedIff` | src/solfleet/provision.py:327-345 | The service is started on a partly replaced set exactly when the keys are in place and the swap broke off between its first and its last move. |
| `Provision.ProvisionNode` | src/solfleet/provision.py:259-354 | The whole call: one read and no change when held back, guarded formats and live-safe installs when run, carried through when allowed and nothing goes wrong; one audit row on every path. |
| `History.CallKeepsEachLive` | src/solfleet/operations.py:294-302 | Files that hold former bytes or bytes with a recorded digest from a sound cache hold, at every artifact destination, what they first held or bytes with the digest of a fresh build of a requested version. |
| `History.RunJobs` | src/solfleet/operations.py:327-426 | From an empty build host on, through any sequence of upgrades and provisioning runs of a node, however they break off: at every command each live destination holds what it held at first or bytes with the digest of a fresh build of a requested version. |

## Left out

- HTTP, JSON-RPC, SSH and scp argument lists, boto3, SQLite and asyncio: replies, command outcomes, rows and samples are parameters or values. Drivers are assumed not to raise, and every step of the catch-up or watch loop waits as long as it says.
- Zone-id lookup and `DnsError`, Cloudflare pagination, letter case and escapes of Route53 names: only the trailing dot is modelled.
- Dns.Route53Driver.RemoveMember: the TTL is not part of the zone specification; the code writes 60 on a removal whatever the pool says, and the method body does the same.
- CLI parsing, tables, the MCP server, `dns_status` and `validate.py`: reporting over the same functions.
- YAML loading and path resolution: a `Fleet` is what the loader returns, `ValidFleet` what its validators enforce.
- Failover.WatchLoop: takes a number of rounds; without one the code loops forever, and what holds after any number of rounds is what the loop establishes.
- Version globs: whether a policy allows a version is an arbitrary predicate of the policy.
- Unit rendering, sysctl and limits contents, apt and rustup steps, file modes and owners: `EnsureUser`, `ApplySystem`, `Chmod` and the mounts have no effect on the modelled state, and the unit text is a parameter.
- The leader view `restart_node` attaches to its result: it decides nothing; the view itself is modelled in `Schedule.dfy`.
- A builder that is the node itself, and two calls running at once: the build host and the node are separate, and one runner issues all commands.
- Executor.AtomicSwap: `mv -f` on one file system is taken as atomic per file (rename() in the System Interfaces volume of POSIX.1-2017); a move across file systems is not modelled.
- Provision.ProvisionNode: formatting once is claimed for truthful probes and for a host where nothing else empties devices.
- Operations.ExecuteUpgrade: live safety and lockstep are stated when the configured paths do not collide (`Layout.ConfiguredPathsApart`); nothing in the code checks for that.
- History.RunJobs: for one node, one install configuration and one runner; other nodes share nothing with it but the build host.
- Builder.HitAgreesWithRebuild: for one fixed install configuration (`StaleCache.dfy` has the changed ones) and deterministic tools.
- Builder.BuildsKeepSound: a failed `git clone` leaves no clone and a failed `cp` to the cache leaves no file; a half-written one of either is not modelled, and the code would take it for complete.
- StaleCache.ChangedConfigIff: the build host and its cache directory stay the same; a configuration that moves to another `builder` or `artifact_cache` starts on another host.
- Remote.StepEffect: a ref names one tree of a repository, so tags or branches that move upstream are not modelled.
- Provision.UnitKeysStart: the unit step ends in `|| true`, so its status says nothing about the unit file, and the contract promises the file only when nothing goes wrong.
- The wording of decision messages: `Safety.Reason` names them.
- Wall-clock times, timestamps and rounded display fields such as minutes and SOL amounts: slots and lamports are exact.
- Audit details: a row keeps operation, cluster, node, mode, verdict and, for DNS, the addresses it is about; the rest of the JSON detail is left out.
- Layout.PathsDistinctIff: paths are compared as strings, so two spellings of one file (`//x` and `/x`, a symbolic link) count as distinct.
- Unicode digits: `isdigit` is taken for the ASCII digits.
