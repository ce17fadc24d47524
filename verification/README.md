# Verified model of the overlay control plane

The controller of an overlay network decides which device may join which virtual network, under
which address, through which gateways and when two devices should try a direct connection. This
project models that logic in Dafny and proves what it keeps over every run.

| part | files |
|---|---|
| gateway grants: approvals, leases, grant cache, policy revision, replay window | `Gateway`, `GatewayGrants`, `GatewayRefresh`, `GatewayRuns`, `GatewayFingerprints`, `GatewayTraces`, `GatewayShortfalls`, `GatewayReplay`, `GatewayControl`, `Ranking` |
| virtual networks: address allocation, device index, holds, epochs | `Subnet`, `TimedMap`, `Network`, `NetworkRuns`, `NetworkEffects`, `NetworkShortfalls`, `NetworkControl` |
| device authorisation: tickets, challenges, proofs, records, names | `Identity`, `Names`, `Accounts`, `AccountsRuns`, `AccountsTraces`, `AccountsUsers`, `AccountsNames`, `AccountsShortfalls`, `AccountsControl` |
| accounts and networks together | `Controller`, `ControllerTraces`, `ControllerShortfalls`, `Handlers`, `Domains` |
| punch coordination | `Punch`, `PunchRuns`, `PunchControl`, `PunchStatus` |
| control streams and packets | `StreamHub`, `Framing`, `Packet`, `Wildcard`, `Text` |

Each part has a model on values (states, steps, runs) about which the theorems are proved. Parts the
source writes as objects also have a class with the source's fields, whose methods are proved to
make exactly the model's step. `dafny verify dfyconfig.toml` checks everything.

Conventions. Time is an integer number of nanoseconds and each handler reads the clock once. A handler
is one atomic step; the source drops its lock inside some handlers (control/gateway.go:66-74,
control/user.go:487-494), and finer interleavings are outside the claims. A walk over a Go map is a
nondeterministic choice. Random ids are fresh values; signatures, digests, URL and address parsing are
parameters. Saving to the store is a parameter that may fail after the change in memory. Networks never
expire: the source writes them into their expiring map without a deadline (control/registration.go:135).

## Where the code falls short of the property one would expect

Each is kept as the code has it, with the exact condition proved and, for most, a run that shows it.

- A deletion that cannot be saved leaves registered clients without a record
  (`Controller.DeleteAuthorised`, `ControllerShortfalls.DeletionStrands`).
- Re-authorising a named device under another kind of user can bring a duplicate name into a network
  (`AccountsRuns.ProveNames`, `AccountsShortfalls.NameCarriedOver`), and so can setting a name when network
  keys collide (`AccountsRuns.SetNameNames`, `AccountsShortfalls.TwinOverlooked`).
- The scans of the grant cache go by key prefix and meet entries of device ids that extend the caller's
  by a bar, so that a caller is handed grants signed for another device (`GatewayGrants.ScanMeets`,
  `GatewayShortfalls.StrangersGrantHandedOut`; exact conditions in `GatewayRefresh.GrantListExact`).
- A control stream registered without a network key stops being found when a route of the same address and
  stream under a network key is replaced or removed (`StreamHub.StepFound`, `StreamHub.PlainRouteLost`).
- A request for an address with fallback can displace the address's lapsed holder
  (`NetworkRuns.DisplacedExactly`, `NetworkShortfalls.FallbackDisplaces`).
- NO_CHANGE says nothing about the session when no alive gateway has a grant in the list
  (`GatewayRefresh.SilentRefreshIgnoresSession`, `GatewayShortfalls.NoChangeForUnknownSession`).
- A gateway report is accepted any number of times at the very instant its window closes
  (`GatewayReplay.ClosingInstant`, `GatewayReplay.AcceptedWithoutEnd`).
- Two branches have no use: the session carry-over is taken only for a key that holds another owner's entry
  (control/gateway.go:460-464, `GatewayGrants.OwnNeverCarries`), the expiry correction never
  (control/gateway.go:128-130, `GatewayReplay.ExpiryIsWindowEnd`).
- The fingerprint of a gateway joins its texts without escaping, so that a change which only moves a separator goes
  unnoticed (`GatewayFingerprints.FingerprintTells`, `GatewayFingerprints.SeparatorsCollide`).
- A name given with a number can exceed the 128 bytes asked of names (`AccountsUsers.NumberedFits`).
- After 2^32 failures of a pair in a row the retry counter starts again (`PunchRuns.ThreeStrikes`).

## Model

| member | source | states |
|---|---|---|
| `GatewayRefresh.GrantListAlways` | control/gateway.go:364-548 | In every reachable state and for every caller, whatever its names: the list holds exactly what the alive gateways get and what is retained, is in order with the default first, and every grant is of an active approved gateway, under the returned revision, and agrees with its ticket. |
| `GatewayRefresh.GrantListExact` | control/gateway.go:364-548 | For every caller in every reachable state: the list is exactly one grant per alive gateway (the good cached one or a new one) plus, for an existing client, the good entry of each silent gateway that its scan meets and the call leaves alone. No gateway comes twice exactly when no two of these name one; every grant is signed for the caller exactly when the cached ones among them are. |
| `GatewayRefresh.NoBarsNoStrangers` | control/gateway.go:513-548 | Without bars in network keys and device ids the keys hold the caller's own grants and there are neither strangers nor rivals. |
| `GatewayRefresh.StrangersGrantListed` | control/gateway.go:513-548 | Otherwise, for any caller: a good cached grant of a device whose id extends the caller's by a bar is handed to the caller whenever that gateway is silent, though signed for the other device. |
| `GatewayShortfalls.StrangersGrantHandedOut` | control/gateway.go:513-548 | Such a run from the start: the gateway reports, device a|b is served, and device a, calling after the lease, gets the grant signed for a|b. |
| `GatewayRefresh.NamedExactly` | control/gateway.go:388-407 | A gateway is in the list exactly when the call has a grant naming it: for an alive gateway with a good cached entry to keep or a ticket to sign, or retained. |
| `GatewayRefresh.OwnNamed` | control/gateway.go:388-407 | When the caller's keys hold its own grants: an alive gateway is listed exactly when it can keep or be given a grant, a silent one exactly when an existing client's scan meets a good entry for it. |
| `GatewayGrants.IssueIsExpected` | control/gateway.go:422-487 | For any names the engine's branches for one gateway come down to a simple reference: keep the good entry that fits, unless the call reissues, otherwise mint. |
| `GatewayGrants.OwnNeverCarries` | control/gateway.go:460-464 | The session carry-over branch is never taken when the caller's keys hold its own grants. |
| `GatewayGrants.CachedMeansReusable` | control/gateway.go:499-511 | After pruning, the fingerprint and 30-second tests come down to a good entry that fits; when the keys hold the caller's own grants every entry left passes them. |
| `GatewayGrants.SlotInBatch` | control/gateway.go:388-407 | Each gateway in the loop is decided as if the earlier ones had not touched the cache. |
| `GatewayGrants.RetainedIsSilent` | control/gateway.go:513-548 | The scan for retained entries meets exactly the good entries of silent gateways under the caller's prefix that the issuing loop leaves alone, unchanged. |
| `GatewayGrants.KnownIsMet` | control/gateway.go:489-497 | The session scan answers yes exactly when a good cached grant under the caller's prefix has the session, for any names. |
| `GatewayRefresh.SessionIsOwn` | control/gateway.go:489-497 | Without bars in device ids that grant is the caller's own. |
| `GatewayGrants.PrefixMatches` | control/gateway.go:695-701 | Exactly which keys a scan by prefix meets: same network and address, and a device id with gateway id that begins with the caller's device id and a bar. |
| `GatewayGrants.PrefixIsOwner` | control/gateway.go:695-701 | For network keys and device ids without a bar the scan meets the owner's own entries and no others. |
| `GatewayGrants.ScanMeets` | control/gateway.go:695-701 | With bars only in device ids, or only in gateway ids: the scan meets exactly the caller's entries and those of devices whose id is the caller's, a bar and more. |
| `GatewayGrants.KeyTells` | control/gateway.go:699-701 | With such names the key of a cached grant tells network, device, address and gateway. |
| `GatewayGrants.UnreadableKeysCollide` | control/gateway.go:695-701 | With other names it does not: two keys of different owners, for any parts. |
| `GatewayRefresh.SessionsKeptOrReissued` | control/gateway.go:379-465 | Every grant in the list of a refresh is retained unchanged, or of an alive gateway: then it keeps the cached session, or has the new session of its rank, or carries the named session over from an entry that does not fit its key. |
| `GatewayRefresh.ReissuedSessionsDistinct` | control/gateway.go:459 | The new sessions of one reissuing refresh are equal exactly for ranks 2^64 apart. |
| `GatewayRefresh.NoChangeSound` | control/registration.go:771-790 | NO_CHANGE, for any names, implies a current revision and that nothing was issued; and, when some alive gateway has a grant in the list, that the client's session is in a good cached grant its scan meets. |
| `GatewayRefresh.SilentRefreshIgnoresSession` | control/registration.go:778-786 | When no alive gateway has a grant in the list NO_CHANGE says nothing about the session: at the current revision it is reported, for any session, exactly when a good entry of a silent gateway is retained. |
| `GatewayShortfalls.NoChangeForUnknownSession` | control/registration.go:778-786 | Such a run from the start, with a session that no entry holds. |
| `GatewayRefresh.NothingToOffer` | control/registration.go:791-800 | REVOKED or TEMPORARILY_UNAVAILABLE exactly when no gateway can be listed; REVOKED exactly when the client's revision is behind. |
| `GatewayRuns.RunGood` | control/gateway.go:168-320 | Every run keeps nodes and reports under their own id, every active node in the approval table, and every cached grant in agreement with its ticket. |
| `GatewayRuns.RunOwned` | control/gateway.go:422-487 | Every run with readable names keeps every cached grant under the key of the device, address and gateway its ticket was signed for. |
| `GatewayRuns.DelistRemoves` | control/gateway.go:198-222 | A successful delisting leaves no approval, no node and no cache entry of the gateway. |
| `GatewayRuns.DelistedStaysOut` | control/gateway.go:50-87 | From a delisting until an administrator's next approval nothing in the engine names the gateway, over any sequence of reports, builds and other approvals, whatever the names. |
| `GatewayRuns.GoneNeverListed` | control/gateway.go:364-420 | No list handed out in such a state names the gateway. |
| `GatewayRuns.SyncMonotone` | control/gateway.go:653-667 | A sync never gives revision 0 and lowers the revision exactly when a changed fingerprint meets the last 64-bit number. |
| `GatewayRuns.SyncedPolicy` | control/gateway.go:646-667 | After a build or a sync the revision stands for the fingerprint of the approved alive set. |
| `GatewayRuns.PolicyOverRun` | control/gateway.go:653-667 | Over a run too short to use up 64 bits the revision never decreases and one revision always means one fingerprint. |
| `GatewayFingerprints.ListedIsCurrent` | control/gateway.go:364-548 | Every grant handed out, kept, minted or retained, has the first channel and the capabilities its gateway has now (names without the separators of the fingerprint). |
| `GatewayFingerprints.RunListsCurrent` | control/gateway.go:364-548 | The same in every state of every run from the start, whatever was reported, approved, delisted and served before. |
| `GatewayFingerprints.RunPlain` | control/gateway.go:472-486 | The invariant behind it: each cached grant has the channel and the capabilities of a gateway with the fingerprint it is filed under. |
| `GatewayFingerprints.FingerprintTells` | control/gateway.go:703-723 | For such names two gateways have one fingerprint exactly when id, endpoint, capabilities and channels are the same. |
| `GatewayFingerprints.ListTells` | control/gateway.go:646-652 | And two lists of gateways exactly when they are so one by one. |
| `GatewayFingerprints.SeparatorsCollide` | control/gateway.go:703-723 | With a separator in a name it no longer tells: two different channels, or capability lists, with one fingerprint, for any parts. |
| `GatewayFingerprints.RevisionTells` | control/gateway.go:653-667 | A synced policy stays at its revision exactly when the same gateways are alive, each with the endpoint, capabilities and channel it had. |
| `GatewayFingerprints.ReportMovesRevision` | control/gateway.go:653-667 | A registered report that changes the endpoint, the capabilities or the channel of an alive gateway starts a new revision. |
| `GatewayTraces.ListedWasMinted` | control/gateway.go:364-603 | Over every run each grant handed out was minted by a call that was served: this one, or an earlier one and then it is good for more than 30 s; its ticket names that caller, the revision then in force, the hard expiry, with the refresh time the lead before; it bears the revision now in force. |
| `GatewayTraces.SessionsApartOverRun` | control/gateway.go:459 | Sessions numbered by two calls differ when the second comes at least as many nanoseconds later as the first had gateways, within 64 bits. |
| `GatewayTraces.AliveIsApproved` | control/gateway.go:605-644 | Over every run a gateway is alive only on an authenticated, complete report of the last 90 s, the one its entry shows; and unless it is the default one an approval of its id, loaded, given outright or by its id on a pending report, stands for that endpoint or a blank one and was not taken back since. |
| `GatewayTraces.RegisteredStaysAlive` | control/gateway.go:22-87 | Conversely a registered gateway stays alive for 90 s through any steps, unless it is delisted, approved at another endpoint, or is the default one and reports another. |
| `GatewayTraces.AnswerExactly` | control/gateway.go:22-109 | The answer to a report, exactly: malformed, unauthenticated, registered or not approved, and what each leaves registered, pending and approved. |
| `GatewayTraces.ApproveExactly` | control/gateway.go:175-196 | Approval by id goes through exactly for a gateway approved already, the default one, or one whose pending report has an endpoint, which is then registered as it reported. |
| `GatewayTraces.DelistThenApprove` | control/gateway.go:175-222 | Delisting keeps the last report pending: approving by id brings the gateway back as it was, with none of its grants. |
| `GatewayReplay.VerdictExactly` | control/gateway.go:121-149 | The verdict on each report of every run: stale exactly when dated more than two minutes before or after the clock, a replay exactly when a report accepted earlier under its nonce is still inside its own window. |
| `Gateway.AliveListUnique` | control/gateway.go:605-629 | The ranked list of approved alive nodes is the same whatever order the table is walked in. |
| `Ranking.SortRanks` | control/gateway.go:676-685 | Items with distinct ids come out strictly ranked, the same items as went in. |
| `Ranking.DefaultLeads` | control/gateway.go:617-628 | A listed default gateway is at the head, even of a list with an id twice. |
| `GatewayReplay.AcceptedOnce` | control/gateway.go:121-149 | A report accepted once is refused at every later time before its window closes as a replay and after that as stale, however other reports interleave. |
| `GatewayReplay.ClosingInstant` | control/gateway.go:123-147 | At the closing instant itself the report is accepted exactly when no cached expiry for its nonce is later. |
| `GatewayReplay.AcceptedWithoutEnd` | control/gateway.go:131-147 | Once accepted at that instant, it is accepted there again any number of times. |
| `GatewayReplay.ReplayedAtClosing` | control/gateway.go:123-147 | The gap is real: any timely report is accepted a second time at that instant. |
| `GatewayReplay.ExpiryIsWindowEnd` | control/gateway.go:127-130 | The correction for an expiry already past is never made. |
| `GatewayReplay.ReplayWindow.ValidateGatewayReplayWindow` | control/gateway.go:121-149 | Refines one step of the replay window: verdict and cache. |
| `GatewayControl.GatewayControl.HandleGatewayReport` | control/gateway.go:22-109 | Authenticated exactly by nonce, signature and replay window; the state is that of admitting the report. |
| `GatewayControl.GatewayControl.RegisterGatewayNodeWithTransport` | control/gateway.go:296-320 | Approves and activates a node with a channel, skips one without. |
| `GatewayControl.GatewayControl.ApproveGatewayNode` | control/gateway.go:168-173 | Approves a gateway for an endpoint. |
| `GatewayControl.GatewayControl.ApproveGatewayNodeByID` | control/gateway.go:175-196 | Refines approval by id, with its errors. |
| `GatewayControl.GatewayControl.DelistGatewayNodeByID` | control/gateway.go:198-222 | Refines delisting, with its errors. |
| `GatewayControl.GatewayControl.DeleteGatewayGrantCacheForGateway` | control/gateway.go:550-556 | Drops exactly the cached grants of one gateway. |
| `GatewayControl.GatewayControl.ApprovedAliveGatewayNodes` | control/gateway.go:605-629 | Returns the ranked list of approved alive nodes. |
| `GatewayControl.GatewayControl.GatewayNodeApproved` | control/gateway.go:631-644 | Decides approval of a node. |
| `GatewayControl.GatewayControl.SyncGatewayGrantPolicy` | control/gateway.go:653-667 | Refines the policy sync; reports whether the fingerprint changed. |
| `GatewayControl.GatewayControl.PruneGatewayGrantCache` | control/gateway.go:499-511 | Keeps exactly the good cached grants. |
| `GatewayControl.GatewayControl.GatewayGrantSessionKnown` | control/gateway.go:489-497 | Decides whether a session is among the entries with the caller's prefix. |
| `GatewayControl.GatewayControl.GatewayAccessGrantForNode` | control/gateway.go:422-487 | Refines the decision for one gateway: grant, whether minted, and cache. |
| `GatewayControl.GatewayControl.RetainedGatewayAccessGrants` | control/gateway.go:513-548 | Walks exactly the retained entries, once each, and stamps their grants. |
| `GatewayControl.GatewayControl.BuildGatewayAccessGrants` | control/gateway.go:364-420 | Refines the whole call: state, revision, whether anything was minted, and the list. |
| `GatewayControl.GatewayControl.HandleRefreshGatewayGrant` | control/registration.go:743-815 | Refuses the wrong sender without a change; otherwise answers with the verdict, the revision and, only for UPDATED, the list. |
| `NetworkRuns.RunGood` | control/network.go:94-157 | In every reachable state of every network: client table and device index are exact inverses, held addresses lie strictly inside the subnet and are neither gateway nor 0, and every live hold has its client record. |
| `NetworkRuns.StepProtects` | control/network.go:99-156 | An address whose holder is online, or offline inside its hold, stays the holder's through a step exactly when the step does not move the holder to another address or delete it. |
| `NetworkRuns.RunProtects` | control/network.go:198-227 | Over any run within the 24 hours of a hold, with whatever drops and reconnections, the address is that device's throughout exactly when the device neither moves to another address nor is deleted. |
| `NetworkRuns.ReconnectsToItsOwn` | control/network.go:115-117 | A device that drops and comes back inside its hold, asking for no address, gets its own again. |
| `NetworkRuns.MovesExactly` | control/network.go:99-117 | A holder moves exactly when it asks for another address the network allows and nobody has a record for; otherwise it is refused or gets its own. |
| `NetworkRuns.PassesOnOnlyAfterLapse` | control/network.go:99-227 | In any state a run of any length reaches, an address that a step takes from its holder was given up by it (moved, deleted) or its holder was offline with a lapsed hold. |
| `NetworkControl.NetworkControl.RegisterIn` | control/registration.go:137-173 | Request check, old address, scan and eviction in turn: a failed allocation changes no client and no hold, a successful one gives the device the address the specification gives. |
| `NetworkRuns.FailedJoinChangesNothing` | control/registration.go:137-145 | So a refused registration leaves every network as it was, save that its own may now exist, empty. |
| `NetworkRuns.DisplacedExactly` | control/network.go:94-157 | A registration displaces another device's client exactly when it comes down to the scan and the client sits at the address the scan returns; that client is then offline without a live hold. |
| `NetworkRuns.PlainRequestDisplacesNobody` | control/network.go:101-114 | A request for an address without fallback displaces nobody. |
| `NetworkRuns.FallbackTakesRequested` | control/network.go:101-156 | With fallback it takes the very address asked for from a lapsed holder when no lower one is free. |
| `NetworkShortfalls.FallbackDisplaces` | control/network.go:101-156 | Such a run from the empty state: in a subnet of one assignable address a device joins and leaves, and another takes the address after the hold. |
| `NetworkRuns.EpochStep` | control/registration.go:304-360 | Every step keeps each network and raises its epoch by at most one, and by exactly one when membership changes or a client is taken offline or renamed. |
| `NetworkEffects.LeaveExactly` | control/network.go:198-227 | The end of a connection takes offline exactly the online clients of that address, in every network, with a hold of 24 h each; every other client and hold is as before. |
| `NetworkEffects.LeaveSpares` | control/network.go:198-227 | A network without an online client of the address keeps everything, its epoch too. |
| `NetworkEffects.StaysOnline` | control/network.go:198-227 | Over any run a device online over one connection stays so, at its address, through the end of every other connection and any step that is not about it. |
| `NetworkEffects.JoinedOnline` | control/registration.go:146-173 | And it is so from its registration on. |
| `NetworkEffects.ClearStaleExactly` | control/registration.go:304-332 | A failed check takes offline exactly the live clients of that device and group. |
| `NetworkEffects.RemoveExactly` | control/registration.go:334-360 | A deletion removes exactly the clients whose record was deleted, with their holds. |
| `NetworkEffects.RenameExactly` | control/registration.go:362-387 | A renaming gives exactly the clients of that device and group the name and changes nothing else. |
| `NetworkEffects.LifeExactly` | control/network.go:163-180 | A ping or a status report makes exactly its client live. |
| `NetworkEffects.JoinRecords` | control/registration.go:146-173 | The record a registration leaves is the one of the request, without a hold; a status survives exactly when the device was at that address. |
| `NetworkEffects.JoinSpares` | control/registration.go:132-173 | A registration changes no other device's client that is online or held, and no other network. |
| `NetworkEffects.RequestExactly` | control/network.go:99-114 | A request without fallback is met exactly when the address is usable and no other device has it, and the two errors tell which fails. |
| `NetworkRuns.StepForgets` | control/expire_map.go:68-89 | A step does not depend on when expired holds are dropped. |
| `NetworkRuns.JoinAllocates` | control/registration.go:132-145 | In every reachable state a device without an address that asks for none is refused exactly when each assignable address has an online holder or one inside its hold, and otherwise gets the lowest other one. |
| `Network.AutomaticAllocation` | control/network.go:118-156 | The same of the allocator alone, for any set of held addresses. |
| `Network.AssignSafe` | control/network.go:94-157 | Any address given is usable, never belongs to a protected other device, and is the one asked for when no fallback is allowed. |
| `Network.FindIPSound` | control/ip.go:124-129 | 0 is a sound "not found": an answer other than 0 is the device's address, and 0 means it has none. |
| `Network.UpsertInverse` | control/ip.go:99-109 | Storing a record keeps the device index exact when the device holds no other address. |
| `Network.RemoveInverse` | control/ip.go:111-122 | Deleting a client keeps the device index exact. |
| `Network.SettleClients` | control/registration.go:146-173 | Settling a device changes only its own former address and the one given. |
| `NetworkControl.NetworkControl.ScanFree` | control/network.go:129-156 | The scan returns the lowest free address and evicts its lapsed holder. |
| `NetworkControl.NetworkControl.GenerateIP` | control/network.go:94-157 | Refines the choice of an address for a registering device. |
| `NetworkControl.NetworkControl.Register` | control/registration.go:132-173 | Refines the network half of a registration. |
| `NetworkControl.NetworkControl.LeaveByRemoteAddr` | control/network.go:198-227 | Refines the end of a connection: its online clients go offline under a hold. |
| `NetworkControl.NetworkControl.ClearStaleClientState` | control/registration.go:304-332 | Refines the loss of live state after a failed authorisation check. |
| `NetworkControl.NetworkControl.RemoveAuthedDeviceRuntimeState` | control/registration.go:334-360 | Refines the removal of deleted devices' clients and holds. |
| `NetworkControl.NetworkControl.UpdateAuthedDeviceRuntimeName` | control/registration.go:362-387 | Refines the renaming of registered clients. |
| `NetworkControl.NetworkControl.FindClient` | control/network.go:168-172 | The walk for an address finds a network that has it, the named one when a key is given, or shows there is none. |
| `NetworkControl.NetworkControl.TouchClientByIPInNetwork` | control/network.go:163-180 | Refines a ping, with or without a network key; returns the 16-bit epoch, 0 for an unknown client. |
| `NetworkControl.NetworkControl.HandleClientStatusInfo` | control/punch.go:117-146 | Refines the membership half of a status report. |
| `NetworkControl.NetworkControl.SweepHolds` | control/expire_map.go:110-137 | A janitor round drops exactly the expired holds. |
| `TimedMap.ExpireMap.Set` | control/expire_map.go:29-45 | Stores a value with its deadline. |
| `TimedMap.ExpireMap.TrySetIfAbsent` | control/expire_map.go:48-66 | Claims a key exactly when no live entry holds it. |
| `TimedMap.ExpireMap.Get` | control/expire_map.go:69-89 | Answers from the live entries; the lazy removal is invisible from then on. |
| `TimedMap.ExpireMap.Delete` | control/expire_map.go:92-97 | Removes one entry. |
| `TimedMap.ExpireMap.Sweep` | control/expire_map.go:110-137 | Leaves exactly the live entries. |
| `TimedMap.AtAfterSet` | control/expire_map.go:29-45 | A stored value is visible exactly until its time to live has passed. |
| `Subnet.ValidateNetmask` | config/config.go:238-251 | The bit loop accepts exactly the masks 2^32 - 2^k for k in 1..31. |
| `Subnet.ValidateGatewayAndNetmask` | config/config.go:211-252 | Exactly the private gateways (section 3 of RFC 1918) that do not end in 255, with such a mask, pass. |
| `Subnet.UsableRange` | control/network.go:118-129 | For such a mask the formulas give 2^k - 2 addresses between network and broadcast, without 32-bit wrap. |
| `Subnet.RequestAgreesWithRange` | control/controller.go:456-470 | The check on requested addresses accepts exactly the allocator's range without the gateway. |
| `AccountsRuns.OneProofEach` | control/registration.go:680-737 | Over any run each ticket and each challenge yields at most one accepted proof. |
| `AccountsRuns.ProofTraced` | control/registration.go:641-737 | Every accepted proof answers a challenge at most 60 s old for the same device and key, under a ticket issued before to that user for that full group. |
| `AccountsTraces.ProofHasRequest` | control/registration.go:641-737 | Over every run the accepted proof, signed, answers a request at most a minute old for the same device and key, under a ticket issued before to the same user; and the group the device asked for is the one the user asked for, up to the user's domain. |
| `AccountsTraces.IssuedExactly` | control/user.go:383-420 | A ticket is issued exactly to a known user for a group of its domain and a positive time to live, for the full name of what was asked. |
| `AccountsTraces.ValidatedExactly` | control/user.go:446-475 | A ticket opens exactly the group it was issued for, to its user, unused and not over. |
| `AccountsTraces.ChallengedExactly` | control/registration.go:641-678 | A request is challenged exactly with such a ticket and a key, and the challenge is about what was asked. |
| `AccountsTraces.OneProofPerTicket` | control/registration.go:680-737 | No two steps of a run accept proofs under one ticket. |
| `AccountsTraces.RunRecorded` | control/user.go:493-512 | In every run each record is that of the last proof accepted for its group and device: its key digest, user and 30 days from then; other steps change only names. |
| `AccountsTraces.CheckedExactly` | control/user.go:711-728 | A device passes the check exactly when its record is there, not over, and holds the digest of the key shown. |
| `AccountsUsers.UsersExactly` | control/user.go:153-203 | Over every run a user is known with exactly the domain of the first step that added it, with a first group that lies in that domain. |
| `AccountsUsers.AddUserExactly` | control/user.go:153-203 | The answer to a request for a user: no name, a foreign group, another domain, or added. |
| `AccountsUsers.SelectExactly` | control/user.go:657-698 | A command goes through exactly when it means a record and, with no group given, no two; it is then about the records it means. |
| `AccountsUsers.DeleteExactly` | control/user.go:657-709 | A deletion drops the records it means and no other, saved or not, and tells of them only if saved. |
| `AccountsUsers.RenameExactly` | control/user.go:769-834 | A renaming gives the trimmed name to the one record meant, exactly when it fits and no other device of the network bears it. |
| `AccountsUsers.GivenNameFits` | control/user.go:730-767 | Setting a name goes through exactly for 1 to 128 bytes that no other device id of the network bears. |
| `AccountsUsers.AssignedOnce` | control/user.go:519-544 | A device is named once: the desired name or that with the lowest free number; one that has a name keeps it. |
| `AccountsUsers.NumberedFits` | control/user.go:836-850 | With a number the name fits 128 bytes exactly when the desired one leaves room for it; the code does not check this again. |
| `AccountsUsers.CheckNameExactly` | control/registration.go:293-302 | A name is accepted exactly when, without the spaces around it, its UTF-8 form has 1 to 128 bytes. |
| `AccountsRuns.UsedStaysUsed` | control/user.go:495-512 | Used tickets stay used. |
| `AccountsRuns.AcceptedExactly` | control/registration.go:685-715 | A proof is accepted exactly when its challenge is present and not over, names this device and key, the signature is good and the ticket still unused and unexpired. |
| `AccountsRuns.RunGood` | control/user.go:383-517 | Every run keeps records under their own keys, group names trimmed, and challenges backed by user and ticket. |
| `AccountsNames.NamesUniqueOverRun` | control/user.go:477-544 | Over every run with plain names (no bar in groups and domains, no '@' in user ids, no group under the personal prefix) in which accepted proofs leave named devices in their networks, names are unique per network up to case. |
| `AccountsNames.PlainIsGentle` | control/user.go:497-767 | Each step of such a run brings no taken name into a network. |
| `AccountsRuns.GentleRunUnique` | control/user.go:497-544 | For any names: unique throughout a run exactly when no accepted proof brings a taken name into a network and no name set is borne by a twin. |
| `AccountsRuns.ProveNames` | control/user.go:493-512 | An accepted proof keeps names unique exactly when the device's name is free in the network of its new owner. |
| `AccountsRuns.StayingIsNoClash` | control/user.go:497-509 | That is so when the device stays in its network or has no name. |
| `AccountsShortfalls.NameCarriedOver` | control/user.go:497-512 | Uniqueness fails otherwise: a run from the empty tables in which a personal device, re-authorised for a group network, takes its name there. |
| `AccountsRuns.SetNameNames` | control/user.go:730-767 | Setting a name keeps names unique exactly when no record of the same device id in the network bears it. |
| `AccountsShortfalls.TwinOverlooked` | control/user.go:750-757 | Uniqueness fails otherwise: a run from the empty tables to two records of one device id in networks whose keys collide. |
| `AccountsRuns.NoTwins` | control/user.go:749-760 | User ids without '@', group names without '|' and not starting with the personal prefix leave no room for this. |
| `AccountsRuns.AssignNames` | control/user.go:519-544 | Assigning a name keeps names unique. |
| `AccountsRuns.RenameNames` | control/user.go:769-834 | Renaming by an administrator keeps names unique. |
| `Names.SearchBounded` | control/user.go:844-849 | The unbounded suffix search finds a free name within one more try than there are devices. |
| `Names.CandidatesDistinct` | control/user.go:844-848 | Candidates differ even after case folding. |
| `Names.FreeNameUnique` | control/user.go:852-870 | A name the scan finds free can be given without a clash. |
| `Names.StoreUnique` | control/user.go:538-539 | Storing a record keeps names unique exactly when no other record clashes with it. |
| `Names.OwnNameFree` | control/user.go:852-870 | When names are unique, the name a device bears is free for it in any case. |
| `Identity.NormalizeIdempotent` | control/user.go:430-444 | Full group names are fixed points and lie in the user's domain. |
| `Identity.NormalizeExactly` | control/user.go:430-444 | What comes out: a name with a dot in the domain as given, one without a dot with the domain behind it, and a dotted name from elsewhere is refused. |
| `Identity.NormalizeByDefault` | control/user.go:431-435 | A user without a domain has the default one. |
| `Identity.NormalizeTells` | control/user.go:430-444 | Two names of a domain, both dotted or both not, have one full name exactly when they are the same. |
| `Identity.NetworksShared` | control/ip.go:21-37 | Spaces do not matter; other users share the network of a group, personal users never share it with them. |
| `Identity.AuthKeyExact` | control/user.go:979-981 | For groups without a bar the key tells group and device. |
| `Identity.NetworkKeyExact` | control/ip.go:21-37 | For plain names the network key tells the group, whether it is personal, and whose. |
| `Accounts.PayloadInjective` | control/controller.go:437-454 | The length-prefixed payload tells its four parts, each shorter than 2^32 bytes. |
| `Accounts.SelectIsSingle` | control/user.go:683-698 | An administrator's command that goes through means exactly one record. |
| `AccountsControl.UserManager.CreateUserWithID` | control/user.go:153-203 | Refines adding a user, refusing a first group outside the domain; an existing user keeps its domain. |
| `AccountsControl.UserManager.IssueDeviceTicket` | control/user.go:383-420 | Refines issuing a ticket, with its errors. |
| `AccountsControl.UserManager.ValidateDeviceAuth` | control/user.go:446-475 | Decides whether a ticket may authorise a device, with the full group name. |
| `AccountsControl.UserManager.AuthDevice` | control/user.go:477-517 | Refines authorising a device: record and used ticket, also when saving fails. |
| `AccountsControl.UserManager.HandleDeviceAuth` | control/registration.go:641-678 | Refines a request: the challenge made. |
| `AccountsControl.UserManager.NewDeviceAuthChallenge` | control/controller.go:390-425 | Adds the challenge and drops exactly the expired ones. |
| `AccountsControl.UserManager.ConsumeDeviceAuthChallenge` | control/controller.go:427-435 | Removes and returns a challenge. |
| `AccountsControl.UserManager.HandleDeviceAuthProof` | control/registration.go:680-737 | Refines a proof, with its errors. |
| `AccountsControl.UserManager.BuildDeviceAuthSignedPayload` | control/controller.go:437-444 | Builds the signed payload. |
| `AccountsControl.UserManager.DisplayNameExistsInNetwork` | control/user.go:852-870 | Decides whether another device of the network bears the name. |
| `AccountsControl.UserManager.UniqueDisplayName` | control/user.go:836-850 | Ends, with the first free candidate. |
| `AccountsControl.UserManager.AssignAuthedDeviceDisplayName` | control/user.go:519-544 | Refines assigning a name. |
| `AccountsControl.UserManager.SetAuthedDeviceDisplayName` | control/user.go:730-767 | Refines setting a name. |
| `AccountsControl.UserManager.RenameAuthedDevice` | control/user.go:769-834 | Refines renaming a device. |
| `AccountsControl.UserManager.DeleteAuthedDevice` | control/user.go:657-709 | Refines deleting: records are gone even when saving fails. |
| `AccountsControl.UserManager.CheckAuthedDevice` | control/user.go:711-728 | Decides whether a device may register. |
| `Controller.AuthorisedOverRun` | control/registration.go:71-83 | No client outlives its authorisation: in every run under a valid configuration, up to any point, each client's group and device has an authorised record exactly when no deletion that could not be saved has hit a registered client. |
| `Controller.DeleteAuthorised` | control/controller_user.go:162-169 | A deletion keeps this exactly when it was saved, matched nothing, or the records it dropped let nobody in. |
| `Controller.FailedDeleteStrands` | control/user.go:700-707 | A device that has just registered is stranded without a record by any deletion that cannot be saved. |
| `ControllerShortfalls.DeletionStrands` | control/user.go:700-707 | Such a run from the empty tables: a user enrols a device, it registers, and its deletion is not saved. |
| `Controller.RegisterSafe` | control/registration.go:71-173 | A registration, successful or not, with any token, keeps every client authorised. |
| `Controller.RegisterSound` | control/registration.go:71-173 | Whatever the token, it keeps what accounts and networks keep each on its own. |
| `ControllerTraces.RegistrationHasProof` | control/registration.go:71-83 | In every run each successful registration presents a key with the digest of the key in the last proof accepted for its group and device, within the time that proof is good for. |
| `ControllerTraces.AdmittedExactly` | control/registration.go:71-83 | A registration is let through exactly when the device has a record under the token that is not over and holds the digest of the key presented. |
| `ControllerTraces.RegisteredMeans` | control/registration.go:71-173 | A registration that succeeds was let through, and leaves the device online in the network of its user and group, at the address answered, under the name of its record. |
| `ControllerTraces.RegisteredInSubnet` | control/registration.go:132-145 | The address answered is usable in the network's subnet, and a group's first registration makes the network as configured. |
| `ControllerTraces.RefusedExactly` | control/registration.go:60-83 | Refused for its texts and keys, for a group that is not configured, or by the check: exactly when which. |
| `ControllerTraces.RefusalTakesOffline` | control/registration.go:71-83 | A registration turned away by the check takes the device's live clients of that group offline and changes nothing else. |
| `ControllerTraces.RenameReachesClients` | control/controller_user.go:171-178 | When a renaming goes through, exactly the clients of the record it means show the new name. |
| `Controller.DeleteSafe` | control/controller_user.go:162-169 | A deletion keeps every client authorised exactly when it is saved or strands nobody. |
| `Controller.TokenTrimmed` | control/user.go:711-717 | A token that passes the check and does not end in a space is trimmed, for any names. |
| `Controller.RenameSafe` | control/controller_user.go:171-178 | Renaming keeps every client authorised. |
| `Handlers.Controller.constructor` | control/controller.go:187-215 | A new controller is valid and every client of it authorised. |
| `Handlers.Controller.HandleRegistration` | control/registration.go:71-173 | Refines a registration across the user manager and the networks; keeps the controller valid, and every client authorised where the specification does. |
| `Handlers.Controller.DeleteAuthedDevice` | control/controller_user.go:162-169 | Refines a deletion across both, likewise. |
| `Handlers.Controller.LeaveByRemoteAddr` | control/network.go:198-227 | The end of a connection, likewise. |
| `Handlers.RegisterForgets` | control/expire_map.go:68-89 | A registration does not depend on when expired holds are dropped. |
| `Domains.MatchDomainAndGroup` | control/gateway.go:900-917 | Finds the longest configured domain the token ends in, and the group before it. |
| `Domains.ResolveGroupNetworkConfig` | control/registration.go:853-889 | Refines the lookup of the settings of the group a token names, in each form of configuration. |
| `Domains.ResolvesExactly` | control/registration.go:853-889 | A token resolves exactly to the subnet of the group it names, by the first of the three tables that is filled in: under the longest domain it ends in, by its full name, or by the one domain. |
| `Domains.ResolvedEndsInLetter` | config/config.go:95-190 | Under a valid configuration a token that resolves does not end in a space. |
| `Domains.BestUnique` | control/gateway.go:901-907 | The answer does not depend on the order of the table. |
| `PunchRuns.StartsPaced` | control/punch.go:190-243 | A status-triggered start follows the last start of the pair by more than 20 s, unless a result, a refusal or a missed deadline of the pair came between. |
| `PunchRuns.ManualStartsPaced` | control/punch.go:212-219 | Manual starts of an unordered pair are more than 3 s apart, whatever happens between. |
| `PunchRuns.BackoffKept` | control/punch.go:199-206 | No status-triggered start within 2 s of a failure, unless a success or a manual request came between, or the failures in a row have wrapped the 32-bit counter to zero; fewer than 2^32 steps never do. |
| `PunchRuns.ThreeStrikes` | control/punch.go:200-202 | After three failures, each within 30 min of the one before, no status-triggered start for 30 min, unless a success or a manual request comes first, or the failures in a row have wrapped the counter below three. |
| `PunchRuns.AttemptsInBudget` | control/punch.go:221-225 | Attempt numbers made by the controller are 1, 2 or 3. |
| `PunchRuns.TryDecides` | control/punch.go:188-243 | A status report starts a punch exactly when both sides are ready and the observer's ledger permits it, as the attempt after the failures counted. |
| `PunchRuns.TryManualDecides` | control/punch.go:195-219 | A manual request starts one exactly when both are ready and the window has passed. |
| `PunchRuns.RunAgrees` | control/punch.go:152-759 | In every reachable state the cooldown, claim and retry maps agree with the ledger an observer of the pair keeps. |
| `PunchRuns.RunLawful` | control/punch.go:152-314 | A step of a run starts at most one punch, of the pair it names, and only if the ledger of the steps before permits it. |
| `PunchRuns.RunStarts` | control/punch.go:152-314 | And it does start one whenever both sides are ready and the ledger permits it. |
| `PunchRuns.OutcomeEffects` | control/punch.go:515-655 | A reported success lifts cooldown and retry record of its pair; a reported failure, a refusal or a session found past its time lifts the cooldown, counts one more failure and holds the pair off; no other message, an acceptance included, touches any pair. |
| `PunchRuns.RunWatches` | control/punch.go:370-655 | In every reachable state each stored session is exactly what the messages about it tell an observer: ends, deadline, acknowledgements, results, state and relay mark. |
| `PunchRuns.RelayFallbackExactly` | control/punch.go:543-655 | Over every run a session is marked for the relay exactly when the last word on it was a failure; a later acceptance does not take the mark away. |
| `PunchStatus.StatusReport` | control/punch.go:152-365 | In every reachable state a status report starts punches only with peers it calls for and the ledger permits, none exactly when there is no such peer, and all of them for a manual request that names no peer. |
| `PunchStatus.StartsExactly` | control/punch.go:172-313 | Of the peers tried exactly those are started. |
| `PunchStatus.EligibleCalls` | control/punch.go:158-187 | Which peers a report calls for: both online with a status and endpoints, neither preferring the relay; a status update unless either reports a direct path, other triggers unless both do, a manual request only its named peer, a mere report none. |
| `Punch.BackoffDoubles` | control/punch.go:715-728 | The waiting time doubles with each failure up to 30 s. |
| `Punch.PairKeyExact` | control/punch.go:708-713 | The text key is one per unordered pair. |
| `PunchControl.PunchControl.TryPeer` | control/punch.go:188-243 | Refines a status-triggered try of one peer. |
| `PunchControl.PunchControl.TryPeerManually` | control/punch.go:195-243 | Refines a manual try of one peer. |
| `PunchControl.PunchControl.BuildPunchStartsFromStatus` | control/punch.go:158-313 | Tries only eligible peers; at most one start unless a manual request names no peer; all eligible peers when nothing started. |
| `PunchControl.PunchControl.HandlePunchRequest` | control/punch.go:370-406 | Refines a client's own session, with its refusals. |
| `PunchControl.PunchControl.HandlePunchAck` | control/punch.go:515-564 | Refines an acknowledgement. |
| `PunchControl.PunchControl.HandlePunchResult` | control/punch.go:566-633 | Refines a result. |
| `PunchControl.PunchControl.Conclude` | control/punch.go:749-759 | Lifts the cooldown and raises or drops the retry record. |
| `PunchControl.PunchControl.ReconcilePunchSessions` | control/punch.go:635-655 | Looks at every stored session once and leaves none overdue and pending. |
| `StreamHub.HubRefinesRoutes` | handlers/quic.go:136-268 | Over any sequence of registrations, replacements, removals and failed writes the three maps stay consistent and every lookup is answered exactly: under a network key as by a simple last-registration-wins map, without one the same except for the routes lost. |
| `StreamHub.StepFound` | handlers/quic.go:196-229 | A route without network key is lost exactly when a bar-free route of its address, held by the same stream, is replaced or removed, until it is registered again. |
| `StreamHub.PlainRouteLost` | handlers/quic.go:200-236 | Such a run, for any network key, address and two streams. |
| `StreamHub.UnregisterExact` | handlers/quic.go:166-194 | Dropping a stream removes every entry that points at it and no other, so never its replacement. |
| `StreamHub.RegisterInverse` | handlers/quic.go:136-158 | Registering keeps route and address index exact inverses exactly when the stream is registered under its own address. |
| `StreamHub.RouteKeyInjective` | handlers/quic.go:132-134 | Route keys tell network key and address, bars or not. |
| `StreamHub.RouteIPOfKey` | handlers/quic.go:270-280 | A route key gives back its address exactly when the network key has no bar. |
| `StreamHub.StreamHub.RegisterSession` | handlers/quic.go:136-164 | Refines a registration; returns the stream replaced. |
| `StreamHub.StreamHub.UnregisterSession` | handlers/quic.go:166-194 | Refines dropping a stream. |
| `StreamHub.StreamHub.UnregisterStaleRoute` | handlers/quic.go:200-229 | Refines removing one stale route. |
| `StreamHub.StreamHub.WriteToRoute` | handlers/quic.go:231-268 | Finds the stream of a route; a failed write drops it from every map. |
| `Framing.Receive` | handlers/quic.go:341-376 | Delivers the frames of the whole byte stream, however it is cut into reads. |
| `Framing.Drain` | handlers/quic.go:357-370 | Takes exactly the complete frames off the buffer. |
| `Framing.ParseFrames` | handlers/quic.go:644-652 | Frames written one after the other parse back to the payloads. |
| `Framing.ParseSound` | handlers/quic.go:357-370 | Whatever is delivered is what the bytes before the remainder frame. |
| `Framing.DeliveredIffSendable` | handlers/quic.go:361-365 | A payload is delivered exactly when its size is between 1 and 2^20. |
| `Framing.BadLengthStops` | handlers/quic.go:362-365 | A bad length ends the stream right after the frames before it. |
| `Framing.ParseAppend` | handlers/quic.go:354-370 | Parsing is incremental: more bytes extend the frames found, and a bad length is final. |
| `Framing.PacketsArrive` | protocol/packet.go:224-260 | Faithful packets framed and cut in any way arrive unchanged, with an empty buffer at the end. |
| `Packet.PacketRoundTrip` | protocol/packet.go:224-260 | A packet survives encoding and decoding exactly when it is V3 with known codes, 4-bit TTLs and IPv4 addresses. |
| `Packet.BytesRoundTrip` | protocol/packet.go:242-260 | Bytes survive decoding and encoding exactly when the first byte is version 3 and both codes are known. |
| `Packet.Marshal` | protocol/packet.go:224-240 | Fills the buffer with the encoding. |
| `Packet.Unmarshal` | protocol/packet.go:242-260 | Decodes a buffer. |
| `Wildcard.WildcardMatch` | control/user.go:233-253 | The row-by-row table answers true exactly when the recursive meaning of '*' and '?' matches. |
| `Wildcard.NextRow` | control/user.go:239-250 | One row of the table from the one before. |

## Left out

- GatewayRefresh.OwnNamed: asks that the caller's keys hold its own grants, which `GatewayRuns.RunOwned` gives for readable names; `GatewayRefresh.NamedExactly` covers every caller.
- GatewayGrants.PrefixMatches: network keys without a bar; with one a key does not tell its network (`GatewayGrants.UnreadableKeysCollide`).
- GatewayGrants.ScanMeets: names of which one kind, device ids or gateway ids, has no bar; with bars in both a key does not tell its parts (`GatewayGrants.UnreadableKeysCollide`).
- GatewayRuns.PolicyOverRun: needs fewer steps than 64-bit revisions are left; `GatewayRuns.SyncMonotone` gives the single wrap-around.
- GatewayFingerprints.ListedIsCurrent: ids, endpoints, channel texts and capabilities without commas, semicolons and bars, and no empty capability; with them a fingerprint does not tell (`GatewayFingerprints.SeparatorsCollide`).
- GatewayFingerprints.RevisionTells: the same names.
- PunchRuns.BackoffKept: distances are in whole milliseconds, as the source compares them.
- NetworkRuns.RunProtects: speaks of runs within one hold; `NetworkRuns.PassesOnOnlyAfterLapse` covers runs of any length.
- Accounts.PayloadInjective: parts of 2^32 bytes or more are excluded, since their length prefix is truncated.
- PunchControl.PunchControl.BuildPunchStartsFromStatus: one network; the walk over all networks for a blank network key is not modelled.
- GatewayControl.GatewayControl.HandleGatewayReport: the normalisation of channel addresses and the primary endpoint are parameters; lease and grace lengths of a grant are constants and left out.
- AccountsControl.UserManager.CreateUserWithID: the policy made for a user is not modelled.
- Controller.AuthorisedOverRun: the response to a registration (device list, DNS profile, exit nodes) is not modelled; its gateway grants are the calls of the gateway part.
- Handlers.Controller.HandleRegistration: decoding of the request, the capability handshake and the response are not modelled.
- Domains.ResolveGroupNetworkConfig: which service addresses a group keeps is a given function of the token.
- NetworkControl.NetworkControl.HandleClientStatusInfo: of the status only reachability and its presence, without the flag for a changed exit node or channel.
- GatewayControl.GatewayControl.HandleRefreshGatewayGrant: the lookup of the sender's network for a blank network key, and of the owner of the address, are parameters.
- Network.AutomaticAllocation: service addresses are a given set of reserved addresses.
- Extending the expiry of records, enrolments, user policies and the lists and views over users and devices: easy members only.
- Restoring users, tickets and records from a store: runs start from empty tables.
- Punch endpoint lists, session reasons and log text.
- DNS, exit nodes, debug collection, HTTP and WebSocket servers, persistence formats and generated protocol code.
- Goroutine scheduling below a handler and the timing of the janitors; a janitor round is a step.
