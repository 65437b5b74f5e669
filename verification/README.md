# A verified model of tunwg's access control

tunwg is a tunnel server: clients register WireGuard peers with it, and the server routes TLS
connections to them by server name. This project models the parts of the server whose mistakes
would be hard to see, and proves what they are meant to guarantee over every input, every run and
every failure.

**The access controller** (`tunwg/access_controller.go`) keeps three stores in step: its maps in
memory, the state file, and the peers on the WireGuard device. `Operations` defines its five
operations as functions on the whole system (`System`: memory, the set of images the state file may
hold, the device). Whatever a call reads from outside - clock, mode, revocations, whether a save or
a device call works - is part of its input, so a statement over all inputs covers every failure.
`Controller` is the same code as classes that update their fields step by step, with the loops of
the original, each method proved equal to the function in `Operations`; loops over Go maps pick
their next key arbitrarily, so the results do not depend on map order. What these functions compute
is pinned down once more without them: `Admissions`, `Loads`, `Restores` and `Reconciles` give every
answer of every operation, and all it leaves in memory, in the file and on the device, as conditions
on the fields of its inputs and of the state before it (`Terms` has the few words they share).
`Runs` puts the operations into whole histories: registrations, key requests, reconciles split into a snapshot and a later
commit, traffic, counter resets, and restarts from any image the file may hold. The theorems about
runs are in `WriteAhead`, `Blocks`, `Issuing`, `IssueBursts`, `Retry`, `PeerLimit`, `Pruning`,
`Forgetting`, `FailClosed`, `Metering`, `SplitMetering`, `Sessions`, `Accounts`, `TakenBack` and
`Returns`. They let a restart find any image that a save may have left. `DiskRuns` proves that this is
what a disk does: every history of a server whose saves are the system calls below, with the process
killed inside any of them and power cuts, is a run in this sense. Restarts of the process need nothing
for that; power cuts need a state directory that is itself durable.

**The state file** (`tunwg/access_store.go`) is a protocol of system calls. `FileSystem` models one
directory with volatile and durable contents, `Store` the calls of `Save`, `ensureMarker` and `Load`
with a trace of every disk state in between, `SaveResults` exactly when a save returns nil and what a
load answers, and `CrashSafety` the guarantees under failing calls, kills and power losses, down to
the images that the controller's model relies on.

**Names, routes and listings**: `NameCodec` and `TunnelNames` (`internal/ip.go`, the routing half of
`tunwg/tunwgs.go`), `SniRoutes` (`tunwg/sni_routes.go`), `DeviceInfo`, `Listings` and `Printouts` (the
listing parser in `internal/wireguard.go`, its meeting with the controller, and the device it reads
back), over `Text` and `Decimals`.

Times are integers in nanoseconds in a zone with a fixed offset, so local midnights and usage dates
are arithmetic; Go's zero time and the Unix epoch are different instants. Texts that are only
compared are numbered.

Some properties one might expect do not hold of the code as it stands. Each is stated with the exact
condition under which it does, or with the sharp bound that takes its place:

- A save that returned nil survives a power loss if and only if the directory of the state file was
  durable before the call, because `MkdirAll` is not followed by a sync of the parent directory
  (`CrashSafety.AcknowledgedIsDurable`).
- A peer that never completed a handshake gets 30 minutes of grace if and only if the device listing
  omits its handshake lines (or prints Go's zero time); a printed 0 becomes the Unix epoch, and the
  next reconcile removes the peer as stale (`Listings.GraceNeedsAnUnprintedHandshake`,
  `Listings.PrintedZeroIsRemovedAtOnce`).
- A published tunnel name is routed back if and only if the API domain is not empty and does not end
  in a dot (`TunnelNames.NameRoundTrip`).
- Looking a label up inverts the encoding if and only if the address lies in the fixed subnet, and
  labels of eight characters are aliases of labels of sixteen (`NameCodec.LabelRoundTrip`,
  `NameCodec.ShortLabelsAlias`).
- The issue limit is per fixed window: in a sliding day an address gets at most twice the limit, and
  for every limit some run reaches that (`Issuing.IssueBoundPerDay`,
  `IssueBursts.TwiceTheLimitIsReached`).
- A device peer that a snapshot misses keeps its record through the commit if and only if it was seen
  under 48 hours before the commit's clock (`WriteAhead.UnlistedPeerKeepsRecordExactly`).
- Charges stay below the traffic in every run in which no registration of a listed peer with charged
  bytes is taken back between a snapshot and its commit (`SplitMetering.NeverChargedMoreThanFlowed`).
  Exactly then a commit writes more to a peer's ledger than was due, by the part already charged
  (`SplitMetering.OverchargedExactly`), and some run charges 200 bytes for 100
  (`TakenBack.MoreChargedThanFlowed`).
- An issued key has at most three running peers in every run in which no registration of a listed
  running peer is taken back like that and no restart brings back too many
  (`PeerLimit.PeerLimitHolds`). Otherwise a commit can count a fourth
  (`PeerLimit.CommitCountsExactly`, `TakenBack.FourPeersOfOneKey`), and a restart, which does not
  count, leaves a key within the limit if and only if at most three of its peers return
  (`PeerLimit.RestoreIsLimitedExactly`, `Returns.FourReturn`).
- Charges are the sum of what a peer's device sessions showed when last charged, less what a stale
  baseline hides after a counter reset or a removal that reported an error
  (`Sessions.ChargesTelescope`); without these nothing is hidden (`Sessions.ChargesAreSessionTotals`).
- The order in which the proxy tries its handlers is irrelevant for a name if and only if the name is
  neither the API domain nor a static host, or its DNS answer names no tunnel
  (`SniRoutes.OrderIsIrrelevantExactly`, `SniRoutes.StaticHostWithTunnelAnswer`).
- Owner texts tell owners apart as long as generations hold no colon, which is so for every one the
  controller writes; load does not check it (`OwnerNames.WrittenOwnersAreDistinct`,
  `OwnerNames.ColonsWouldCollide`).

## Model

| member | source | states |
|---|---|---|
| `Controller.AccessController.Load` | tunwg/access_controller.go:140-232 | the loops over the decoded file refuse exactly the files that `Loads.LoadRefusesExactly` lists, leaving only acceptable records in memory and nothing saved, and otherwise leave the memory, latch and file images of `Operations.Load`, which `Loads.LoadedExactly` spells out |
| `Controller.AccessController.Save` | tunwg/access_controller.go:254-267 | a save writes the current maps, or latches the error and leaves old and new image possible |
| `Controller.AccessController.RegisterPeer` | tunwg/access_controller.go:381-465 | result, maps, file images and device after every branch, both rollbacks included, are those of `Operations.RegisterPeer`, which `Admissions.RegistrationAnswers` and `Admissions.RegistrationEffect` spell out; the device is asked to add the peer without an endpoint |
| `Controller.AccessController.CountOthers` | tunwg/access_controller.go:406-420 | the loop counts the other running peers of the owner |
| `Controller.AccessController.IssueAuthKey` | tunwg/access_controller.go:467-502 | result, counters and file images after every branch are those of `Operations.IssueAuthKey`, which `Admissions.IssueSucceedsExactly` and `Admissions.IssueEffect` spell out |
| `Controller.AccessController.RestorePeers` | tunwg/access_controller.go:504-574 | whatever order the map is visited in, records, accounts, running peers, device and file end up as one closed-form result that mentions no order, spelled out by `FailClosed.RestoreIsExact` and `Restores`; each peer put back is added with the endpoint of its record |
| `Controller.AccessController.Reconcile` | tunwg/access_controller.go:585-751 | the passes together leave the memory, file images and device of `Operations.Reconcile`, spelled out by `Verdicts.ReconcileKeepsExactly` and `Reconciles`; the "no quota owner state" returns are unreachable |
| `Controller.AccessController.ChargeSnapshot` | tunwg/access_controller.go:611-664 | the charging pass charges every listed peer and collects exactly the unknown ones |
| `Controller.AccessController.BlockSnapshot` | tunwg/access_controller.go:666-685 | the blocking pass blocks exactly the listed owners over a positive limit that were not blocked |
| `Controller.AccessController.JudgeSnapshot` | tunwg/access_controller.go:687-720 | the judging pass rejects exactly the listed peers with a reason and forgets only their endpoints |
| `Controller.AccessController.PruneStaleRecords` | tunwg/access_controller.go:721-729 | records and sessions that are unlisted and 48 hours old go, in any order, and no others |
| `Controller.AccessController.PruneStaleQuotas` | tunwg/access_controller.go:730-738 | accounts that nobody refers to, idle for 48 hours and not blocked go, and no others |
| `Controller.AccessController.RemovePeers` | tunwg/access_controller.go:742-749 | removals that work end device peer and session; those that fail leave the session |
| `Clocks.NextLocalMidnight` | tunwg/access_controller.go:581-583 | the first instant of the next local day, after now and at most a day later |
| `Charging.AddUsageIsCappedSum` | tunwg/access_controller.go:318-326 | adding usage is adding the positive part, capped at 2^63 - 1 |
| `Structure.AdmitCases` | tunwg/access_controller.go:394-465 | an authorized registration ends in one of four ways, each with its exact condition and its whole effect; it is refused exactly when the owner's account of the day is blocked or over a positive limit, or an issued key runs three other peers |
| `Loads.LoadRefusesExactly` | tunwg/access_controller.go:163-213 | a file is refused, and nothing saved, if and only if it has another version, a null field, no window, a name that is no key, an empty owner, negative usage, a bad date, a missing time, an id and generation that do not fit, an endpoint without time, a peer without account, or a negative count |
| `Loads.LoadedExactly` | tunwg/access_controller.go:140-232 | any other file leaves its records, its accounts brought to the day, no session, and its window with the positive counts unless a day has passed; without a file the maps are empty; the new state is saved or the latch set |
| `Structure.LoadEstablishesSound` | tunwg/access_controller.go:140-232 | a load of an acceptable image fails only when its own save fails, and otherwise links all maps |
| `Structure.RegisterKeepsSound` | tunwg/access_controller.go:381-465 | every branch keeps owners accounted for, sessions recorded, and memory and all file images loadable |
| `Structure.IssueKeepsSound` | tunwg/access_controller.go:467-502 | the same for key requests |
| `Structure.RestoreKeepsSound` | tunwg/access_controller.go:504-574 | the same for restoring peers |
| `Structure.ReconcileKeepsSound` | tunwg/access_controller.go:585-751 | the same for reconciles, with adoption, blocking, pruning and removal |
| `Structure.SavedStateReloads` | tunwg/access_controller.go:140-252 | loading what was saved gives the same peers, accounts brought to the date, no sessions, and the same counts and window unless the window is over |
| `Runs.RunsStayHealthy` | tunwg/access_controller.go:140-751 | the structural invariant holds in every state of every run, restarts included |
| `Runs.EveryImageReloads` | tunwg/access_controller.go:163-232 | no file a run may leave behind is refused; a restart fails only when its own save fails |
| `Charging.AggregateCharge` | tunwg/access_controller.go:627-652 | after one reconcile each owner's usage is its usage of the day plus the sum of its listed peers' deltas, capped once; other accounts are untouched |
| `Charging.ChargeIgnoresOrder` | tunwg/access_controller.go:611-664 | charging any permutation of the snapshot gives the same memory |
| `Charging.DeltaFitsInt64` | tunwg/access_controller.go:642-649 | a delta is what the counter grew by, or all of it after a reset; deltas of non-negative 64-bit counters are non-negative and fit |
| `Verdicts.ReconcileKeepsExactly` | tunwg/access_controller.go:611-749 | after a nil reconcile whose removals work, a listed peer is on the device if and only if its record has the id kind and the generation of the current mode (in the open mode any, or none), revocations are readable and do not name it, its owner is unblocked and within any positive limit after all charges, and it was idle for less than 30 minutes; unlisted peers are untouched |
| `Reconciles.ReconcileLeavesExactly` | tunwg/access_controller.go:611-749 | after a nil reconcile each listed peer's record is seen now, with the listed endpoint, its old one or none by the age of its last handshake, and none if it is removed; its session has the listed counters and ends exactly when its removal worked; unlisted records and sessions stay as they were for 48 hours |
| `Reconciles.ReconcileAccountsExactly` | tunwg/access_controller.go:627-739 | each charged owner's account is that of the day with all charges added, blocked to the end of the day when over a positive limit; any other is unchanged and kept exactly while referred to, for 48 hours, or while blocked; the file holds just this state |
| `Reconciles.ReconcileFailsExactly` | tunwg/access_controller.go:603-606 | a reconcile fails exactly when latched, changing nothing, or when its save fails, removing nobody |
| `Reconciles.RotationRemovesTheOthers` | tunwg/access_controller.go:363-375 | after the secret changed, a nil reconcile whose removals work leaves on the device only peers recorded under an unrevoked issued id of the new secret |
| `Verdicts.OverQuotaOwnerLosesAll` | tunwg/access_controller.go:666-720 | an owner over a positive limit loses every listed peer in the same reconcile |
| `Verdicts.ReconcileIgnoresOrder` | tunwg/access_controller.go:585-751 | the whole outcome of a reconcile is the same for every order of the snapshot |
| `WriteAhead.DevicePeersAreAuthorized` | tunwg/access_controller.go:430-456 | in every state of every run, with registrations between snapshot and commit and every failure, each device peer has a record in memory and in every possible file image |
| `WriteAhead.UnlistedPeerKeepsRecordExactly` | tunwg/access_controller.go:721-729 | an unlisted device peer keeps its record through a nil reconcile exactly if it was seen under 48 hours before, and stays on the device either way |
| `Blocks.OverQuotaBlocks` | tunwg/access_controller.go:666-685 | a nil reconcile that charges an owner past the limit leaves it blocked until midnight in memory and on disk, blocked before or not |
| `Blocks.RunsBlockUntilMidnight` | tunwg/access_controller.go:678 | in every run each block, in memory and in every file image, lasts until the midnight after its account's date |
| `Blocks.BlockedOwnerStaysOut` | tunwg/access_controller.go:403-405 | any owner blocked after a nil reconcile of any run, whenever it was blocked, is kept from registering and from being restored for the rest of the day, through any later run |
| `Blocks.BlockHoldsUntilMidnight` | tunwg/access_controller.go:308-316 | from then on, through any calls, modes, limits, failed saves and restarts of that day, no registration of the owner succeeds and no restart puts its peers on the device |
| `Blocks.BlockedApplicantIsRefused` | tunwg/access_controller.go:396-405 | a registration for a blocked owner fails and changes nothing at all |
| `Blocks.BlockLiftsAtMidnight` | tunwg/access_controller.go:308-316 | the block refuses until midnight and not after it, whatever the limit |
| `Issuing.IssueBoundPerWindow` | tunwg/access_controller.go:467-502 | over any run with restarts and failed saves, the keys handed to one address in one window never exceed the limit |
| `Issuing.IssueBoundPerDay` | tunwg/access_controller.go:214-227 | the keys handed to one address in any 24 hours never exceed twice the limit |
| `IssueBursts.TwiceTheLimitIsReached` | tunwg/access_controller.go:485-488 | for every limit a run hands one address twice the limit within a day, so the bound is sharp |
| `Retry.RetryAfterBounds` | tunwg/access_controller.go:485-496 | the wait lies between a second and the window, and the advertised seconds reach its end by less than a second too much |
| `Retry.WaitingIsEnough` | tunwg/tunwgs.go:139-146 | an address that is silent for the advertised seconds is not rate limited next time, whatever others do and whatever restarts happen |
| `PeerLimit.PeerLimitHolds` | tunwg/access_controller.go:406-463 | from a state with at most three running peers per issued key, every run keeps it so, with anything between snapshots and commits and with restarts, unless a listed running peer is taken back there or a restart brings back more than three or a device call that reported an error added one |
| `PeerLimit.RestoreCountsExactly` | tunwg/access_controller.go:522-569 | after a restore an owner's running peers are those that ran and exactly its recorded peers that may return and whose device call worked |
| `PeerLimit.RestoreIsLimitedExactly` | tunwg/access_controller.go:522-569 | a restart leaves every issued key within the limit if and only if at most three of its peers are brought back |
| `Returns.FourReturn` | tunwg/access_controller.go:550-568 | a run from a fresh start in which restarts alone bring an issued key to four running peers |
| `PeerLimit.CommitCountsExactly` | tunwg/access_controller.go:637-641 | the running peers of an issued key after a nil commit are exactly the recorded ones that ran or were listed, kept their record and were not removed |
| `TakenBack.FourPeersOfOneKey` | tunwg/access_controller.go:437-451 | a run from a fresh start that ends with four running peers of one issued key |
| `Pruning.PruningIsInvisible` | tunwg/access_controller.go:730-738 | for every owner and later instant, usage and block are the same whether or not accounts were pruned |
| `Pruning.RegistrationIgnoresPruning` | tunwg/access_controller.go:399-405 | registrations answer and act alike on pruned and unpruned accounts |
| `Pruning.RunsStayDated` | tunwg/access_controller.go:651-652 | in every run nonzero usage is dated by the day the account was last used |
| `Forgetting.ReconciledAgrees` | tunwg/access_controller.go:611-738 | two memories that differ in forgotten accounts come out of the next reconcile equal |
| `Forgetting.RunsStayAlike` | tunwg/access_controller.go:140-751 | servers alike but for forgotten accounts stay alike through every run of the same calls, restarts from alike images included |
| `Forgetting.ForgettingIsInvisible` | tunwg/access_controller.go:730-738 | after any run and a nil reconcile, every later run of a server that remembered has a run of the one that forgot with the same devices, records, sessions and answers |
| `Forgetting.ForgettingIsInvisibleBack` | tunwg/access_controller.go:730-738 | and the other way round |
| `Admissions.RegistrationSucceedsExactly` | tunwg/access_controller.go:333-465 | success if and only if unlatched, valid in the mode, unrevoked with readable revocations, not blocked and within any positive limit by the owner's account of the day, at most two other running peers for an issued key, saved and added; the record then names that owner, and a refusal leaves records and accounts alone |
| `Admissions.RegistrationAnswers` | tunwg/access_controller.go:333-465 | each error value and the credential that comes with it, if and only if its condition on the inputs and the state holds |
| `Admissions.RegistrationEffect` | tunwg/access_controller.go:421-464 | the whole state after it: the record keeps its creation time and endpoint, the account is that of the day seen now, a running session keeps its counters and is added now; or the latch, or everything back, or no change |
| `Admissions.IssueSucceedsExactly` | tunwg/access_controller.go:467-502 | the generated key is returned if and only if a secret is set and unchanged, a key was generated, nothing is latched, the address got fewer than the limit in the current window and the save worked; otherwise no key and the exact reason, with the time left of the window and at least a second |
| `Admissions.IssueEffect` | tunwg/access_controller.go:481-501 | the window and counts after it, in memory and in the file: a finished window starts anew, an answered request counts one more for its address, a failed save counts nothing |
| `FailClosed.LostSaveChangesNothing` | tunwg/access_controller.go:432-436 | a registration whose first save fails changes no map and no device peer |
| `FailClosed.FailedAddIsTakenBack` | tunwg/access_controller.go:437-456 | one whose device call fails and is cleaned up restores records and accounts, and the peer is neither running nor on the device |
| `FailClosed.FailedSaveLatches` | tunwg/access_controller.go:254-267 | unavailable state is reported exactly when the latch is left set, and no key is returned then |
| `FailClosed.LatchHoldsUntilRestart` | tunwg/access_controller.go:384-386 | once latched, no sequence of calls changes memory, file images or device peers before the next load |
| `FailClosed.RestoreIsExact` | tunwg/access_controller.go:504-574 | the peers put back are exactly those with an endpoint seen in the last 15 minutes, the id kind and generation of the current mode, readable revocations that do not name them, and an owner neither blocked nor over quota today |
| `Restores.RestoreLeavesExactly` | tunwg/access_controller.go:522-569 | every record stays as it is if its endpoint is recent and the peer came back, its owner is stopped, or only unreadable revocations stand in the way, and else loses its endpoint; accounts of owners with a recent endpoint are brought to the day and blocked when over a positive limit, others unchanged; sessions begin for the peers that came back |
| `Restores.RestoreRewritesExactly` | tunwg/access_controller.go:570-573 | the file is written again if and only if an endpoint was forgotten or a block set; an error is reported exactly when that write fails |
| `Metering.AtomicRunsNeverOvercharge` | tunwg/access_controller.go:637-651 | with atomic reconciles and no assumption on clocks, no peer and not all peers together are charged more than their traffic, through resets, key switches, removals and restarts |
| `SplitMetering.NeverChargedMoreThanFlowed` | tunwg/access_controller.go:586-651 | the same with anything between snapshots and commits, unless a listed peer with charged bytes is taken back there |
| `SplitMetering.OverchargedExactly` | tunwg/access_controller.go:449-451 | the ledger entry a commit writes for a listed peer exceeds what was due at the snapshot if and only if its registration was taken back in between and part of a listed counter had been charged; the excess is that part |
| `TakenBack.MoreChargedThanFlowed` | tunwg/access_controller.go:437-456 | a run from a fresh start in which more is charged than was ever sent |
| `Sessions.ChargesTelescope` | tunwg/access_controller.go:637-651 | with atomic reconciles, charged and hidden bytes of a peer are together the counters at which its device sessions, ended and open, were last charged; hidden is exactly each baseline of an earlier session that a counter passed again |
| `Sessions.ChargesAreSessionTotals` | tunwg/access_controller.go:442-463 | without counter resets and removals that report an error, the charges are exactly that sum |
| `Accounts.UsageFollowsCharges` | tunwg/access_controller.go:308-316 | within one day an owner's usage, in memory and in every file image, lies between what was charged and saved and what was charged |
| `Accounts.UsageIsExact` | tunwg/access_controller.go:399-405 | if no reconcile's save failed, the usage a registration sees is the earlier usage plus everything charged, capped, through pruning and restarts |
| `OwnerNames.AuthGeneration` | tunwg/access_controller.go:132-138 | no text for the empty secret, otherwise 32 characters without a colon |
| `OwnerNames.GenerationSpells` | tunwg/access_controller.go:136-137 | the first sixteen bytes of the digest, two hexadecimal digits each |
| `OwnerNames.OwnerTextIsInjective` | tunwg/access_controller.go:301-306 | owner texts are equal exactly when the owners are, whatever the ids, for generations without a colon, and never empty |
| `OwnerNames.WrittenOwnersAreDistinct` | tunwg/access_controller.go:132-138 | so it is for every record the controller writes |
| `OwnerNames.ColonsWouldCollide` | tunwg/access_controller.go:196-206 | a generation with a colon, which load accepts, can make two keys share a text |
| `Store.FileStore.Save` | tunwg/access_store.go:85-130 | the disk states passed through and the result are those of the save protocol |
| `Store.FileStore.WriteFile` | tunwg/access_store.go:96-113 | truncate, chmod, write, sync, close with one error kept, every intermediate state recorded |
| `Store.FileStore.Publish` | tunwg/access_store.go:114-129 | rename, directory sync and marker, stopping at the first failure |
| `Store.FileStore.EnsureMarker` | tunwg/access_store.go:132-170 | the marker is left alone when current, otherwise written and synced |
| `Store.FileStore.Load` | tunwg/access_store.go:55-83 | a state, nothing, or the reason for refusal, as the directory stands |
| `SaveResults.SaveReturnsNilExactly` | tunwg/access_store.go:85-170 | a save returns nil if and only if every call it makes works, the marker's only when it does not hold already; the state file then holds the new state and the marker its version line |
| `SaveResults.LoadAnswersExactly` | tunwg/access_store.go:55-83 | each answer of a load, if and only if the state file and the marker are as it says |
| `CrashSafety.SaveIsSafe` | tunwg/access_store.go:85-130 | every disk state during a save is safe and holds an earlier image or the new one; a nil return leaves only the new one, and the marker |
| `CrashSafety.LoadSeesAnImage` | tunwg/access_store.go:55-83 | on a safe disk a load never finds a torn state and never a marker without a state |
| `CrashSafety.CrashDuringSave` | tunwg/access_store.go:85-170 | a kill or power loss at any point of a save lets the next load find only an earlier image or the new one |
| `CrashSafety.AcknowledgedIsDurable` | tunwg/access_store.go:85-90 | after a nil return every power loss keeps the new state, if and only if the directory was durable before |
| `CrashSafety.EveryRunIsCrashConsistent` | tunwg/access_store.go:55-170 | over any sequence of saves, kills and power losses the next load finds exactly one of the states the saves allow; "nothing" becomes possible again only through a power loss before the directory was durable |
| `CrashSafety.DeletionIsAlwaysNoticed` | tunwg/access_store.go:74-80 | after one nil save on a durable directory, a deleted state file is reported by every later load |
| `CrashSafety.ControllerViewIsSound` | tunwg/access_store.go:114-130 | the images the controller counts on after a nil, failed or interrupted save cover everything a restarted process may load, and on a durable directory everything a power loss may leave |
| `DiskRuns.StepImages` | tunwg/access_controller.go:254-267 | the images of a run are what the saves of its calls, in order, leave |
| `DiskRuns.MachinesRunAsModelled` | tunwg/access_store.go:55-170 | every history from a fresh server on a new disk, with failing system calls, kills inside saves and power cuts once the directory is durable, is a run of the controller's model, and the next load finds whole one of the images it counts on |
| `NameCodec.GroupIsOneNumber` | internal/ip.go:33 | eight base32 digits spell the same forty-bit number as the five bytes |
| `NameCodec.EncodedIsOneNumber` | internal/ip.go:33 | and so do all digits of a label and all its bytes, in order |
| `NameCodec.AlphabetIs` | internal/ip.go:33 | the digits are A to Z and 2 to 7 |
| `NameCodec.PublishedLabel` | internal/ip.go:28-49 | one label spelled out: alphabet, the low half of the address, then the port with its low byte first |
| `NameCodec.Base32RoundTrip` | internal/ip.go:28-37 | decoding gives the bytes if and only if the text is their encoding |
| `NameCodec.LabelRoundTrip` | internal/ip.go:28-49 | looking up any letter case of a label gives the port and low half back, and the whole address exactly inside the subnet |
| `NameCodec.LookupRoundTrip` | internal/ip.go:36-49 | a sixteen-character label that is looked up is the label of what it names |
| `NameCodec.LookupSucceedsExactly` | internal/ip.go:36-49 | a label of whole groups is looked up if and only if it has eight or sixteen characters of the alphabet, any other text if and only if it decodes to one to ten bytes, filled up with zeros in front |
| `NameCodec.ShortLabelsAlias` | internal/ip.go:41 | an eight-character label names what it names with eight zero digits in front |
| `TunnelNames.ExtractSpelled` | internal/ip.go:55-62 | a dotless label under a usable domain is extracted from every spelling of the name |
| `TunnelNames.ExtractsExactly` | internal/ip.go:55-62 | a label is extracted if and only if the normalized name is the label, a dot and the domain, and the label is dotless and not empty |
| `TunnelNames.RoutesExactly` | tunwg/tunwgs.go:257-281 | each destination and each error, if and only if its condition on the name, the domain and the DNS answer holds |
| `TunnelNames.NameRoundTrip` | tunwg/tunwgs.go:257-281 | every spelling of a published name is routed to its address and port, whatever the DNS answers, if and only if the API domain is usable |
| `TunnelNames.CanonicalNameRoundTrip` | tunwg/tunwgs.go:264-275 | a name outside the API domain goes where its canonical name says, and nowhere without an answer |
| `TunnelNames.DeepNamesAreRefused` | tunwg/tunwgs.go:260-263 | a name under the API domain that is not one label deep is refused without a lookup |
| `SniRoutes.ParseSNIConfig` | tunwg/sni_routes.go:32-71 | accepts exactly the lists whose lines are all acceptable, with their routes in order, and otherwise names the first bad line and the first rule it breaks |
| `SniRoutes.AnswerIsUnique` | tunwg/sni_routes.go:32-71 | the inputs settle the answer |
| `SniRoutes.LineIs` | tunwg/sni_routes.go:43-69 | the rules of one line, in their order, with the problem each names |
| `SniRoutes.GoodRoutesAreAccepted` | tunwg/sni_routes.go:32-71 | every list of routes with distinct valid hosts outside the API domain that are no addresses, and with valid targets, is accepted as printed |
| `SniRoutes.ValidNameIsShaped` | tunwg/sni_routes.go:77-92 | a name is valid if and only if it has at most 253 small letters, digits, dots and dashes, no dot or dash at an end or beside a dot, and a dot among any 64 characters |
| `SniRoutes.PrintedPortIsValid` | tunwg/sni_routes.go:102-103 | the ports are the numbers from 1 to 65535, also after zeros |
| `SniRoutes.TargetIsValidExactly` | tunwg/sni_routes.go:94-104 | a target is valid if and only if it splits into a host that is an address or a valid name and a decimal port from 1 to 65535 |
| `SniRoutes.ValidNameIsNormal` | tunwg/sni_routes.go:73-92 | a valid name has only host characters and inner dots, and is its own normal form |
| `SniRoutes.AcceptedConfigIsGood` | tunwg/sni_routes.go:43-69 | accepted hosts are distinct, normal, not addresses and outside the API domain |
| `SniRoutes.ReparsesToItself` | tunwg/sni_routes.go:32-71 | printing an accepted configuration and parsing it gives it back |
| `SniRoutes.BuildTargets` | tunwg/sni_routes.go:116-137 | the loop builds the table in which later routes win |
| `SniRoutes.TableFindsRoutes` | tunwg/sni_routes.go:116-137 | with distinct hosts the table finds exactly the listed routes, each with its target and PROXY protocol version 1 or 0 |
| `SniRoutes.HandlersTakeSpellings` | tunwg/sni_routes.go:112-137 | the API and the static handlers take exactly the spellings of the API domain and of an accepted host |
| `SniRoutes.RoutesAreDisjoint` | tunwg/sni_routes.go:108-140 | no server name belongs to two of the API, the static routes and the encoded tunnels, however the API domain is written |
| `SniRoutes.OrderIsIrrelevantExactly` | tunwg/sni_routes.go:108-140 | every order of the API, static and tunnel handlers finds the same one if and only if the name is neither the API domain nor a static host, or its DNS answer names no tunnel |
| `SniRoutes.StaticHostWithTunnelAnswer` | tunwg/sni_routes.go:132-138 | a static host whose canonical name spells a published tunnel name is taken by both handlers, and the proxy's order gives it to the static backend |
| `DeviceInfo.GetWgDeviceInfo` | internal/wireguard.go:120-185 | the streaming parser gives the peers of the listing cut at `public_key`, or its first fault |
| `DeviceInfo.PrintedNumbersAreRead` | internal/wireguard.go:150-162 | every number of 64 bits is read back from its decimal text, and one that does not fit is refused |
| `Printouts.ListingRoundTrip` | internal/wireguard.go:120-185 | whatever device is printed, line by line, the parser's reading of it is that device |
| `Printouts.ReadingIsUnique` | internal/wireguard.go:120-185 | and there is only one reading of a listing |
| `Printouts.FaultIs` | internal/wireguard.go:137-162 | which lines are refused and which make the parser panic, by their key and value |
| `Listings.SegmentsCutTheListing` | internal/wireguard.go:141-147 | header and segments put together are the listing, and each segment has one `public_key`, its first line |
| `Listings.NoPeerIsLost` | internal/wireguard.go:128-184 | each `public_key` line gives one peer, in order |
| `Listings.FieldsArePrinted` | internal/wireguard.go:154-162 | counters, endpoint and handshake are the last ones printed for that peer, in any order of lines |
| `Listings.GraceNeedsAnUnprintedHandshake` | internal/wireguard.go:159-162 | idle time counts from when the peer was added exactly if no handshake, or Go's zero time, is printed |
| `Listings.PrintedZeroIsRemovedAtOnce` | tunwg/access_controller.go:710-714 | a peer printed with handshake 0 is removed by the next nil reconcile, even at the instant it was added |

## Left out

- HMAC, SHA-256 and random key generation: a validated id, a digest and a fresh key are inputs of the calls.
- JSON, time and WireGuard key encodings: exact injections; texts that are only compared are numbered.
- Daylight-saving and zone changes: one fixed offset per run.
- Saturation of Go durations and of seconds near the 64-bit limits: time differences are unbounded here.
- Changes of mode or secret in the middle of one call: a call reads its mode once, except for the second reading in `issueAuthKey`.
- `run`, the failure channel and process exit: only the latch they react to.
- WriteAhead.DevicePeersAreAuthorized: assumes a clock that does not go back and commits under 48 hours after their snapshot, because a later commit forgets peers the snapshot missed (`WriteAhead.UnlistedPeerKeepsRecordExactly`).
- SplitMetering.NeverChargedMoreThanFlowed: assumes the same of clocks; `Metering.AtomicRunsNeverOvercharge` does not.
- Sessions.ChargesTelescope: stated for atomic reconciles; for split ones there are `SplitMetering.NeverChargedMoreThanFlowed` and `SplitMetering.OverchargedExactly`.
- File systems that reorder single directory changes or apply half a rename: a crash leaves one of the directory's past states whole.
- Base32 texts that are not whole groups or hold line breaks: the library's answer is a parameter.
- Case mapping outside ASCII.
- `net.SplitHostPort`, `net.ParseIP`, `netip.ParseAddr`, `strconv.ParseBool` and hexadecimal keys: parameters of the parsers.
- The scanner's limit on line length and its read errors.
- DNS lookups, TCP proxying, TLS and certificates, HTTP handlers, the UDP relay, the client, logging, flags and deployment files.
