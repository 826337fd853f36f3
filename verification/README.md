# Verified model of the distributed ML training scheduler

A Dafny model of the parts of the scheduler whose correctness depends on more than one
function at a time, with proofs over every input, every run and every reachable state.
`dafny verify dfyconfig.toml` checks the whole project.

## What is modelled

**Headscale management and the Gateway** (`Management*.dfy`, `Gateway*.dfy`). Four linked
tables (enrollments, endpoints, grants, sessions) change through atomic transactions that
roll back when they raise. Each transaction is a function from tables to tables and a
reply (`ManagementTransactions`); a run is any list of transactions with a clock that does
not go back (`ManagementRuns`); remote calls sit between transactions, so node lists, key
creation results and cleanup results are free arguments of the steps. One invariant over
the four tables is kept by every transaction (`ManagementInvariants`), a second relation
says how rows may move over time, and the theorems (`ManagementTheorems`, `ManagementSweep`,
`ManagementObservation`, `ManagementSwept`, `ManagementCleanup`) follow from the two. `ManagementService`, `ManagementAccess` and `ManagementReconciler`
are the services themselves, with loops over rows, and refine those functions.
`GatewayRelay` is the Gateway's renewal loop as a timed process; `GatewayComposition`
puts any number of relays and the management service together, with delayed and lost
answers and turns that other steps may interrupt, and bounds how long a relay can outlive
a revocation.

**The Worker's coordinator** (`Coordinator*.dfy`). A journal, a claim and an admission
switch survive a crash; mode, leases and the in-flight flag do not. Runs include crashes
between and inside operations, restarts with any clock, and the startup step that resolves
a lost claim.

**Image revisions** (`Revision*.dfy`). Builders claim queued revisions under a lease and
call back under a fenced attempt; publication settles revision, workspace, save operation,
submission and job in one transaction.

**Streamed archives** (`ByteOrder`, `Crc32`, `Zip64*.dfy`, `OutputListing`). The bytes of a
ZIP64 archive as a function of the files, a reader that works back from the end record,
the chunk-by-chunk writer, what a reader makes of a download that was cut short, a
bit-level CRC-32, and the listing that names the entries.

**Stream protocols** (`Records`, `Chunks`, `Demux`). The record framing and its incremental
parser, numbered file chunks and the upload a session assembles, and the demultiplexer of
Docker exec frames.

**Delivery and rates** (`LogDelivery`, `GrantWindow`). Log batches cut to fit a request
body and kept until acknowledged; the burst window on SSH grants.

## Where the code and its promises differ

- A changed node address is meant to end an enrollment. During confirmation and during a
  probe the denial is rolled back together with the refusal, and so is the offline mark of
  a node that is gone (`AddressChangeConfirmed`, `AddressChangeProbed`; exactly what is
  kept: `ConfirmKeepsIff`, `ProbeKeepsIff`; a run that gets there:
  `AddressChangeReachable`). The sweep makes it durable, except where it has just recorded
  one of the new addresses for a gateway: the address is then unacceptable before it is
  changed, and the enrollment stands (`AddressChangeMissed`; exactly when: `AddressChange`,
  and `TakenDownIff` for every confirmed enrollment and any sweep).
- A cleanup deletes the nodes that used a dead enrollment's key and the node it was
  confirmed with. When that node has registered again under the key of a newer enrollment,
  it is the node of a live one (`CleanupCanNameLive`; exactly when: `CleanupSparesIff`).
- No claim is meant to be sent while interactive work is unreleased. `accept` reads the
  boot identifier after it has journalled the assignment and before it sets the mode; when
  that read fails the gate opens (`GateCanOpen`; exactly when, in one step and over every
  run: `AcceptGateIff`, `GateShutIff`). The retried claim can accept the same assignment a second time:
  interactive and estimation work never regains its authority that way
  (`ExclusiveNotRegained`), batch work does (`BatchRegained`).
- A failed download is meant not to pass for a smaller archive. No end record is sent
  after a failure, but the contents sent before it may end in one, and then the bytes read
  as an archive (`CutOffCanRead`; exactly when: `ReadsIff`; nowhere but inside such
  contents: `CutOffReadsOnlyIf`).
- The record parser is meant to hold a strict prefix of one record. It looks at a header
  only once six bytes are in, so a wrong byte can sit in the buffer (`WrongByteHeld`); the
  exact condition is `HeldIff`.
- A failed log send is retried whole. Lines of its earlier batches, or of a batch whose
  answer was lost, reach the Scheduler twice (`CanRepeat`; exactly when: `TwiceIff`, and
  `OnceIff` for what was taken and not acknowledged).

## Model

| member | source | states |
|---|---|---|
| ManagementTheorems.Reachable | Headscale_Management/headscale_management/database.py:51-65 | over every interleaving of committed transactions from the empty database the invariant holds at every point, and what follows only moves the tables forward |
| ManagementTheorems.OneLiveEnrollment | Headscale_Management/headscale_management/enrollment_service.py:80-136 | in every reachable state a role and identity has at most one live enrollment, and a live one is the newest ever reserved |
| ManagementTheorems.DeadForever | Headscale_Management/headscale_management/enrollment_service.py:43-50 | an enrollment that is revoking, revoked, expired or failed is never live again |
| ManagementTheorems.ReplayOnlyForNewest | Headscale_Management/headscale_management/enrollment_service.py:71-78 | a replayed key belongs to an enrollment that is issued, unexpired and the newest of its slot, and is the stored key |
| ManagementTheorems.CreatedKeyOnlyForNewest | Headscale_Management/headscale_management/enrollment_service.py:123-136 | a new key is handed out exactly when its reservation is still pending and in time, and it is then the newest; otherwise the reservation is dead |
| ManagementObservation.ConfirmKeepsIff | Headscale_Management/headscale_management/enrollment_service.py:182-200 | a confirmation succeeds, and keeps its writes, exactly for a verified sight of a current enrollment that is confirmed or in time; every other sight is rolled back, the offline mark and a denial included |
| ManagementObservation.ProbeKeepsIff | Headscale_Management/headscale_management/main.py:96-117 | so with the probe's membership transaction, exactly for a verified sight of a current enrollment of the probed generation and version |
| ManagementSwept.SweptRow | Headscale_Management/headscale_management/reconciliation.py:65-97 | every enrollment after a whole sweep, for every order of rows and any node list, in closed form over the rows before it: what its own visit makes of it, with the gateways visited earlier already recorded, and then a denial if the lease of its standing endpoint has run out |
| ManagementSwept.PassRow | Headscale_Management/headscale_management/reconciliation.py:65-86 | each row after the pass over all enrollments, whatever the visits before and after it do |
| ManagementSwept.AddressChange | Headscale_Management/headscale_management/enrollment_service.py:155-180 | a changed address of a confirmed enrollment, in any node list: the confirmation is refused and changes nothing; the whole sweep takes the enrollment down exactly when it is a gateway's, or its endpoint's lease has run out, or no gateway visited earlier in the sweep has been given one of the new addresses |
| ManagementSwept.AddressChangeMissed | Headscale_Management/headscale_management/reconciliation.py:65-86 | a run after which a sweep confirms a gateway with the very address an endpoint has moved to, and the endpoint's enrollment stands |
| ManagementObservation.AddressChangeConfirmed | Headscale_Management/headscale_management/enrollment_service.py:182-200 | the refused confirmation, with its status |
| ManagementObservation.AddressChangeProbed | Headscale_Management/headscale_management/main.py:96-117 | a probe that meets it is refused and changes nothing |
| ManagementSwept.TakenDownIff | Headscale_Management/headscale_management/reconciliation.py:65-97 | a sweep takes a confirmed enrollment down exactly when its node is seen, past the gateways recorded so far, with other acceptable addresses, or the lease of its standing endpoint has run out |
| ManagementObservation.StandsThroughRefusals | Headscale_Management/headscale_management/enrollment_service.py:182-200 | no confirmation and no probe takes a confirmed enrollment down |
| ManagementObservation.AddressChangeReachable | Headscale_Management/headscale_management/enrollment_service.py:155-180 | a run from the empty database that reaches such a state |
| ManagementTheorems.RoutedThroughNewest | Headscale_Management/headscale_management/grant_service.py:75-86 | a session is routed only through a confirmed endpoint enrollment of its resource that is the newest ever reserved, to that enrollment's addresses |
| ManagementTheorems.VersionTestsRedundant | Headscale_Management/headscale_management/grant_service.py:75-86 | while a session and its grant stand, their generation, version and owner are the endpoint's, so those tests never fail alone |
| ManagementTheorems.CascadeComplete | Headscale_Management/headscale_management/endpoint_service.py:42-74 | a withdrawn endpoint has only revoked grants and sessions; a standing one has a confirmed, newest enrollment of its own generation |
| ManagementTheorems.FinishedForever | Headscale_Management/headscale_management/grant_service.py:122-130 | a session once revoked or lapsed stays so through every later run: routing answers 410 and renewal fails |
| ManagementTheorems.DeadEnrollmentEndsSessions | Headscale_Management/headscale_management/enrollment_service.py:37-50 | when the enrollment behind an endpoint is dead, every session through it is revoked |
| ManagementTheorems.ReservationKillsSlot | Headscale_Management/headscale_management/enrollment_service.py:88-114 | a reservation leaves every earlier enrollment of its slot dead and rebinds no endpoint |
| ManagementTheorems.ReservationEndsSessions | Headscale_Management/headscale_management/enrollment_service.py:88-114 | killing a slot revokes every session of its resource |
| ManagementTheorems.NewGenerationFencesSessions | Headscale_Management/headscale_management/grant_service.py:75-86 | committing the reservation of a newer generation, before any remote key exists, denies every older session from then on, in every later run |
| ManagementTheorems.ClaimBinds | Headscale_Management/headscale_management/grant_service.py:88-120 | a successful claim names the session stored for this ticket and this request, with its lease and deadline |
| ManagementTheorems.OneSessionPerTicket | Headscale_Management/headscale_management/grant_service.py:88-120 | sessions holding one ticket, at any two moments, are one session with one request |
| ManagementTheorems.TicketAdmitsOneSession | Headscale_Management/headscale_management/grant_service.py:88-120 | all successful claims of one ticket in a run came from one request and returned one session |
| ManagementTheorems.LeaseBounds | Headscale_Management/headscale_management/grant_service.py:88-130 | a lease never exceeds the session deadline, which is the grant's, nor one session lease past the clock |
| ManagementSweep.SweepClears | Headscale_Management/headscale_management/reconciliation.py:58-97 | after a sweep no unconfirmed enrollment past its expiry, no standing endpoint past its lease, no readiness without fresh evidence and no lapsed active session is left, for every order of rows |
| ManagementCleanup.CleanupComplete | Headscale_Management/headscale_management/reconciliation.py:74-80 | the cleanups of a sweep are one for each dead row that is due and nothing else |
| ManagementCleanup.CleanupSparesIff | Headscale_Management/headscale_management/reconciliation.py:74-80 | they spare the key and the node of an enrollment exactly when no due row shares its key or node and no listed node that used a due row's key is its node |
| ManagementCleanup.CleanupSparesLive | Headscale_Management/headscale_management/reconciliation.py:74-80 | if the control plane gives no key, node or node identifier twice and lists a node under its own key, no cleanup names the key or the node that an enrollment live after the whole sweep has then, one it was just confirmed with included |
| ManagementCleanup.CleanupCanNameLive | Headscale_Management/headscale_management/reconciliation.py:74-80 | a run in which a node registers again under the next generation's key, the sweep verifies the newer enrollment with it, and its cleanup of the older one names it |
| ManagementInvariants.DenyKeeps | Headscale_Management/headscale_management/enrollment_service.py:43-50 | denying a set of enrollments keeps the cross-table invariant and moves rows only forward |
| ManagementInvariants.InvalidateKeeps | Headscale_Management/headscale_management/enrollment_service.py:37-41 | revoking the grants and sessions of resources keeps the invariant |
| ManagementInvariants.ReserveKeeps | Headscale_Management/headscale_management/enrollment_service.py:88-114 | a reservation, including the denial of everything it displaces, keeps the invariant |
| ManagementInvariants.CompleteKeyKeeps | Headscale_Management/headscale_management/enrollment_service.py:123-136 | storing a received key, or denying a reservation that died meanwhile, keeps the invariant |
| ManagementInvariants.FailKeyKeeps | Headscale_Management/headscale_management/enrollment_service.py:117-122 | recording a failed or unknown key creation keeps the invariant |
| ManagementInvariants.ObserveKeeps | Headscale_Management/headscale_management/enrollment_service.py:155-180 | observing nodes keeps the invariant |
| ManagementInvariants.ConfirmKeeps | Headscale_Management/headscale_management/enrollment_service.py:182-200 | confirmation keeps the invariant |
| ManagementInvariants.RegisterKeeps | Headscale_Management/headscale_management/endpoint_service.py:42-74 | registering or rebinding an endpoint, with the withdrawal of its old grants, keeps the invariant |
| ManagementInvariants.RenewResourceKeeps | Headscale_Management/headscale_management/endpoint_service.py:80-88 | an endpoint lease renewal keeps the invariant |
| ManagementInvariants.TargetsKeeps | Headscale_Management/headscale_management/endpoint_service.py:90-108 | assigning probe targets keeps the invariant |
| ManagementInvariants.ProbeMembershipKeeps | Headscale_Management/headscale_management/main.py:96-117 | the first transaction of the probe route keeps the invariant |
| ManagementInvariants.ProbeKeeps | Headscale_Management/headscale_management/endpoint_service.py:110-122 | a probe result keeps the invariant |
| ManagementInvariants.IssueKeeps | Headscale_Management/headscale_management/grant_service.py:20-44 | issuing a grant keeps the invariant |
| ManagementInvariants.ClaimKeeps | Headscale_Management/headscale_management/grant_service.py:88-120 | claiming a ticket keeps the invariant |
| ManagementInvariants.RenewKeeps | Headscale_Management/headscale_management/grant_service.py:122-130 | renewing a session keeps the invariant |
| ManagementInvariants.ReleaseKeeps | Headscale_Management/headscale_management/grant_service.py:132-140 | releasing a session keeps the invariant |
| ManagementInvariants.RevokeGrantKeeps | Headscale_Management/headscale_management/grant_service.py:142-149 | revoking a grant keeps the invariant |
| ManagementInvariants.SweepKeeps | Headscale_Management/headscale_management/reconciliation.py:65-97 | the whole sweep transaction keeps the invariant |
| ManagementInvariants.FinishCleanupKeeps | Headscale_Management/headscale_management/reconciliation.py:98-114 | settling a cleanup keeps the invariant |
| ManagementRuns.StepKeeps | Headscale_Management/headscale_management/database.py:51-65 | every operation of the service keeps the invariant and only moves forward |
| ManagementRuns.StepLeases | Headscale_Management/headscale_management/grant_service.py:122-130 | every operation keeps each lease within one session lease of the clock |
| ManagementRuns.RunKeeps | Headscale_Management/headscale_management/database.py:51-65 | so does every timed run |
| ManagementService.EnrollmentService.InvalidateRows | Headscale_Management/headscale_management/enrollment_service.py:37-41 | the loops over grants and sessions revoke exactly those of the resource |
| ManagementService.EnrollmentService.DenyRow | Headscale_Management/headscale_management/enrollment_service.py:43-50 | the row-by-row denial equals denial as a whole: the enrollment, its endpoints, their grants and sessions |
| ManagementService.EnrollmentService.ScanSlot | Headscale_Management/headscale_management/enrollment_service.py:88-114 | the scan finds the newest enrollment of the slot and whether the generation is taken |
| ManagementService.EnrollmentService.DenyDisplaced | Headscale_Management/headscale_management/enrollment_service.py:88-114 | the loop over displaced rows denies exactly those, whatever the order |
| ManagementService.EnrollmentService.EnrollReserve | Headscale_Management/headscale_management/enrollment_service.py:80-114 | the first transaction of enroll, scans and denial loops included, refines `Reserve`: same reply, same tables, nothing changed on a refusal |
| ManagementService.EnrollmentService.EnrollComplete | Headscale_Management/headscale_management/enrollment_service.py:123-136 | the last transaction of a successful enroll refines `CompleteKey` |
| ManagementService.EnrollmentService.EnrollFail | Headscale_Management/headscale_management/enrollment_service.py:117-122 | the last transaction of a failed enroll refines `FailKey`, touching a pending row only |
| ManagementService.EnrollmentService.ObserveRow | Headscale_Management/headscale_management/enrollment_service.py:155-180 | observation of one enrollment refines `Observe`: the address, expiry and online evidence it records, or the denial |
| ManagementService.EnrollmentService.CheckCurrent | Headscale_Management/headscale_management/enrollment_service.py:52-58 | the check raises 409 exactly when a newer enrollment of the slot exists and 410 exactly when the current one is dead |
| ManagementService.EnrollmentService.ConfirmNode | Headscale_Management/headscale_management/enrollment_service.py:182-200 | confirmation refines `Confirm`, and a refusal changes nothing, not even the denial it made |
| ManagementService.EnrollmentService.RevokeById | Headscale_Management/headscale_management/main.py:75-82 | revoking an enrollment refines its denial with everything bound to it |
| ManagementAccess.EndpointService.CheckAvailable | Headscale_Management/headscale_management/endpoint_service.py:25-36 | the check raises exactly when enrollment, membership, lease or reachability evidence is missing or stale |
| ManagementAccess.EndpointService.RegisterEndpoint | Headscale_Management/headscale_management/endpoint_service.py:42-74 | registration refines `Register`: a changed binding withdraws every grant and session of the old one |
| ManagementAccess.EndpointService.AssignProbes | Headscale_Management/headscale_management/endpoint_service.py:90-108 | the loop over reachable endpoints gives each its probe target as specified |
| ManagementAccess.EndpointService.ProbeMembershipAgain | Headscale_Management/headscale_management/main.py:96-117 | the probe route's membership transaction refines `ProbeMembership`, rolled back on a refusal |
| ManagementAccess.EndpointService.ProbeResult | Headscale_Management/headscale_management/endpoint_service.py:110-122 | recording a probe refines `Probe`, refusing a stale generation or version |
| ManagementAccess.EndpointService.Revoke | Headscale_Management/headscale_management/endpoint_service.py:124-129 | revoking an endpoint refines the denial of its enrollment |
| ManagementAccess.GrantService.IssueTicket | Headscale_Management/headscale_management/grant_service.py:20-44 | issuing refines `Issue`: the ticket carries the stored grant's claims |
| ManagementAccess.GrantService.ClaimTicket | Headscale_Management/headscale_management/grant_service.py:88-120 | claiming refines `Claim`: an earlier session of the ticket is found by scanning, and only its own request may have it again |
| ManagementAccess.GrantService.RenewSession | Headscale_Management/headscale_management/grant_service.py:122-130 | renewal refines `Renew`: routed before and after, and never past the deadline |
| ManagementAccess.GrantService.Revoke | Headscale_Management/headscale_management/grant_service.py:142-149 | grant revocation refines `RevokeGrant`: the grant and every session of it |
| ManagementReconciler.Reconciler.Once | Headscale_Management/headscale_management/reconciliation.py:58-97 | the three loops of a sweep compute the specified tables for whatever order the rows come in, and collect exactly the cleanups `CleanupList` names, in that order, each of a row that is dead in the end |
| ManagementReconciler.Reconciler.Finish | Headscale_Management/headscale_management/reconciliation.py:98-114 | a cleanup transaction settles the enrollment, or backs off, as specified |
| GatewayRelay.Relay.Authorization | Gateway/interactive_gateway/relay.py:59-89 | for every list of turns the loop ends in the state `TakeTurns` gives, leaving as soon as the relay is closed |
| GatewayRelay.ClosedByLimit | Gateway/interactive_gateway/relay.py:59-89 | whatever happens to renewals, a relay whose answers never grant past a limit is closed by any turn at or after it |
| GatewayRelay.NoOversleeping | Gateway/interactive_gateway/relay.py:59-89 | an open relay neither sleeps nor waits for an answer more than a millisecond past its lease |
| GatewayRelay.ClosedInTime | Gateway/interactive_gateway/relay.py:59-89 | with prompt timers no turn of an open relay starts more than a millisecond past that limit |
| GatewayComposition.PlayConsistent | Gateway/interactive_gateway/relay.py:59-89 | management and any number of relays composed, with management free to act between the start of a turn and its end: every answer in flight and every local lease stays covered by the stored lease |
| GatewayComposition.RelayWithinStoredLease | Gateway/interactive_gateway/relay.py:59-89 | a relay never believes in a longer lease than management has stored |
| GatewayComposition.RevocationBound | Gateway/interactive_gateway/relay.py:59-89 | after a session is finished at time T no relay's local lease for it passes T plus one session lease, and any later turn closes it |
| GatewayComposition.GrantRevocationFinishes | Headscale_Management/headscale_management/grant_service.py:142-149 | revoking a grant finishes its session |
| GatewayComposition.EndpointRevocationFinishes | Headscale_Management/headscale_management/endpoint_service.py:124-129 | revoking an endpoint or its enrollment finishes its sessions |
| GatewayComposition.ReservationFinishes | Headscale_Management/headscale_management/enrollment_service.py:88-114 | reserving a newer generation of an endpoint finishes its sessions |
| GatewayComposition.ClosedAfterRevocation | Gateway/interactive_gateway/relay.py:59-89 | from nothing, over every story in which a session is revoked at time T, by its grant, its endpoint, its enrollment or a newer generation: with prompt timers no turn of its still open relay, after the first, starts later than T plus one session lease plus a millisecond |
| GatewayComposition.ClosedThoughLate | Gateway/interactive_gateway/relay.py:59-89 | the same of a relay that connects only after the revocation |
| CoordinatorTheorems.ExclusiveAuthority | Worker/execution_state.py:235-278 | on any journal left on disk and through every run with crashes: an interactive or estimation assignment that may act is the only one that may, and a released assignment was cleaned first |
| CoordinatorTheorems.NoClaimBesideExclusive | Worker/execution_state.py:190-233 | while an exclusive assignment is unreleased no claim is sent, on any journal and through restarts, in every run without an accept of interactive work that fails to read the boot identifier while claims are open |
| CoordinatorTheorems.GateShutIff | Worker/execution_state.py:190-319 | over every run the gate is shut at every point exactly when there is no such accept |
| Coordinator.AcceptGateIff | Worker/execution_state.py:256-275 | accepting an assignment, new or journalled before, keeps the claim gate exactly when the boot identifier is readable, or the work is not interactive, or claims were blocked anyway |
| CoordinatorTheorems.GateCanOpen | Worker/execution_state.py:256-275 | a run in which the boot identifier cannot be read, interactive work is unreleased and a claim is sent |
| CoordinatorTheorems.NoSecondRequest | Worker/execution_state.py:211-233 | from sending a request until it is settled only that very request is sent again, and nothing at all by a process that did not mint it |
| CoordinatorTheorems.OneInFlight | Worker/execution_state.py:211-233 | no claim is sent while one is unanswered |
| CoordinatorTheorems.AuthorityGainedIff | Worker/execution_state.py:285-293 | one step gives authority exactly by a conflict-free, in-time accept of that assignment while not draining |
| CoordinatorTheorems.ExclusiveNotRegained | Worker/execution_state.py:235-307 | an unreleased interactive or estimation assignment that has lost its authority never has it again, through every run with crashes that does not release it, however often it is accepted |
| CoordinatorTheorems.BatchRegained | Worker/execution_state.py:211-278 | a run in which a batch assignment loses its lease and the retried claim, under the same request, gives its authority back |
| CoordinatorTheorems.LostForever | Worker/execution_state.py:285-307 | authority once lost never returns in any run that does not accept the same assignment anew |
| CoordinatorTheorems.AuthorityIsLeased | Worker/execution_state.py:285-307 | whenever an assignment may act, an answer in the run covers that instant with five seconds to spare, counted from when the request was sent |
| Coordinator.DoSound | Worker/execution_state.py:235-319 | every operation, crash and startup step keeps exclusivity and cleanup before release |
| Coordinator.DoGated | Worker/execution_state.py:190-319 | an operation, crash or startup step opens the claim gate exactly when it is such an accept |
| CoordinatorService.Coordinator.constructor | Worker/execution_state.py:60-84 | a new process keeps the journal, the claim and the admission switch, and nothing else |
| CoordinatorService.Coordinator.EstimationActive | Worker/execution_state.py:134-152 | the scan finds an unreleased estimation outside the excluded assignment and job exactly when there is one |
| CoordinatorService.Coordinator.OthersActive | Worker/execution_state.py:154-171 | the scan finds other unreleased work exactly when there is some |
| CoordinatorService.Coordinator.CanStart | Worker/execution_state.py:173-188 | an estimation may start exactly when no other job has unreleased work; anything else exactly when no estimation is unreleased |
| CoordinatorService.Coordinator.Available | Worker/execution_state.py:201-209 | one pass settles the mode the journal calls for |
| CoordinatorService.Coordinator.BeginClaim | Worker/execution_state.py:211-233 | refines `BeginClaim`: the durable request again, or a fresh one, or none |
| CoordinatorService.Coordinator.FindConflict | Worker/execution_state.py:240-247 | the scan finds a conflict exactly when work is refused or an exclusive assignment would meet another |
| CoordinatorService.Coordinator.Accept | Worker/execution_state.py:235-278 | refines `Accept`, and raises exactly when the boot identifier cannot be read, with the row already journalled |
| CoordinatorService.Coordinator.Release | Worker/execution_state.py:314-319 | releases and recomputes the mode, and raises exactly for an unknown or unclean assignment |
| RevisionTheorems.RunKeeps | Scheduler/app/services/interactive_workspace_service.py:184-426 | every run of the revision machine keeps the cross-table invariant |
| RevisionTheorems.Consistent | Scheduler/app/services/interactive_workspace_service.py:296-377 | in every reachable state a save has succeeded exactly when its revision is published and failed exactly when that failed or was cancelled; saved heads name published revisions of their own workspace; a submission has at most one job, on the published digest |
| RevisionTheorems.DoMoves | Scheduler/app/services/interactive_workspace_service.py:203-401 | every operation keeps each revision's identity and either leaves its state or lowers its rank; only a claim takes an attempt, and a fresh one; a lapsed lease is never revived |
| RevisionTheorems.AtMostThreeClaims | Scheduler/app/services/interactive_workspace_service.py:230-266 | no revision is handed to a builder more than three times, over any run |
| RevisionTheorems.ClaimsCounted | Scheduler/app/services/interactive_workspace_service.py:230-266 | the attempt counter is exactly the number of claims |
| RevisionTheorems.ChangesBounded | Scheduler/app/services/interactive_workspace_service.py:203-266 | the number of state changes of a revision is bounded by its rank, at most seven |
| RevisionTheorems.PublishedForever | Scheduler/app/services/interactive_workspace_service.py:304-315 | a published tag, digest and base digest never change |
| RevisionTheorems.LeaseBound | Scheduler/app/services/interactive_workspace_service.py:230-266 | over every run no build lease reaches more than 45 seconds past the clock |
| RevisionTheorems.BuilderSitsOut | Scheduler/app/services/interactive_workspace_service.py:203-237 | a builder whose build was returned is not eligible for that revision again within 45 seconds, unless another builder had it in between |
| RevisionTheorems.AttemptDies | Scheduler/app/services/interactive_workspace_service.py:269-293 | an attempt is dead once its lease lapses, and once its revision leaves the building state by whatever hand |
| RevisionTheorems.DeadForever | Scheduler/app/services/interactive_workspace_service.py:269-293 | a dead attempt stays dead in every later run |
| RevisionTheorems.DeadIsInert | Scheduler/app/services/interactive_workspace_service.py:269-426 | a callback or heartbeat under a dead attempt changes no state, lease, image, workspace, save, submission or job; a redelivered publication may only add a profile label |
| RevisionTheorems.OneOutcome | Scheduler/app/services/interactive_workspace_service.py:296-401 | the callbacks of one attempt decide its revision at most once, over any run |
| RevisionTheorems.TagsDistinct | Scheduler/app/services/interactive_workspace_service.py:298-301 | two published revisions never share an image tag, given identifiers spelled differently and equally long |
| RevisionInvariants.DoKeeps | Scheduler/app/services/interactive_workspace_service.py:184-426 | every operation, and every step of the save pipeline around it, keeps the invariant |
| RevisionInvariants.SaveFails | Scheduler/app/services/interactive_workspace_service.py:41-54 | a revision that ends unpublished takes its save and its submission with it, keeping all links |
| RevisionInvariants.SaveSettles | Scheduler/app/services/interactive_workspace_service.py:333-363 | publication of a snapshot settles its save, submission and job together, keeping all links |
| RevisionInvariants.QueueSnapshotKeeps | Scheduler/app/services/snapshot_artifact_service.py:142-189 | a finished upload queues one snapshot revision linked both ways with its save |
| RevisionService.Scheduler.Expire | Scheduler/app/services/interactive_workspace_service.py:203-227 | the loop returns every lapsed build to the queue, or fails it on its last attempt, moves no other row, and equals a run of the machine |
| RevisionService.Scheduler.FindNext | Scheduler/app/services/interactive_workspace_service.py:234-237 | the scan finds the oldest eligible unlocked revision, and none only when there is none |
| RevisionService.Scheduler.Claim | Scheduler/app/services/interactive_workspace_service.py:230-266 | a claim takes that revision after lapsed ones are dealt with, and equals a run of the machine |
| RevisionService.Scheduler.MarkReady | Scheduler/app/services/interactive_workspace_service.py:296-377 | refines `MarkReady`: fence, image reference, immutability and redelivery, each with its status |
| RevisionService.Scheduler.Failure | Scheduler/app/services/interactive_workspace_service.py:380-401 | refines `Failure`: back to the queue, or terminal on a user failure or the last attempt |
| RevisionService.Scheduler.Heartbeat | Scheduler/app/services/interactive_workspace_service.py:404-426 | the loop extends exactly the standing builds and reports exactly the others, in order |
| RevisionService.Scheduler.Cancel | Scheduler/app/services/interactive_workspace_service.py:184-200 | cancels the latest revision of the workspace exactly when it is queued or building |
| Zip64Theorems.RoundTrip | Scheduler/app/services/output_service.py:328-427 | reading from the end record to the locator, the ZIP64 record, the directory and the local headers recovers exactly the files, in order, with versions, flags, placeholders, counts, checksums and descriptors checked, whatever the files |
| Zip64Theorems.FileRead | Scheduler/app/services/output_service.py:328-393 | each directory entry leads to its own local header, contents and descriptor |
| Zip64Theorems.ArchiveEnds | Scheduler/app/services/output_service.py:396-427 | the end records lead to the right count and directory |
| Zip64Writer.StreamArchive | Scheduler/app/services/output_service.py:494-558 | for every chunking, streaming succeeds exactly when every fetch completed and every length fits, and then reads back as the objects |
| Zip64Writer.Stream | Scheduler/app/services/output_service.py:494-558 | finished exactly when every fetch completed and every length fits, and then the specified archive; otherwise exactly the bytes up to where the first object that stops it stopped, or up to the end records |
| Zip64Writer.StreamEntry | Scheduler/app/services/output_service.py:508-547 | one object: header, contents, descriptor; stops part way exactly on a long name, a failed fetch or an oversized content, with exactly the bytes sent until then |
| Zip64Writer.StreamChunks | Scheduler/app/services/output_service.py:515-528 | chunks pass unchanged; the running checksum, length and offset are those of the whole |
| Zip64Truncation.ReadsIff | Scheduler/app/services/output_service.py:396-427 | any bytes read as an archive exactly when their last 22 bytes lead, over locator and ZIP64 record, to a directory whose entries all lead to intact contents |
| Zip64Truncation.CutOffReadsOnlyIf | Scheduler/app/services/output_service.py:494-558 | a download stopped at an object reads as an archive only if it stopped inside that object's contents and these end in 42 bytes that are a locator and an end record |
| Zip64Truncation.CutOffCanRead | Scheduler/app/services/output_service.py:494-558 | and it can: after any whole objects, contents that so far end in end records make the cut-short download read as an empty archive |
| Crc32.CrcAppend | Scheduler/app/services/output_service.py:525-526 | the checksum carried over chunks is the checksum of the whole |
| Crc32.BurstDetected | Scheduler/app/services/output_service.py:525-526 | contents that differ only within four consecutive bytes have different checksums |
| ByteOrder.UnpackPack | Scheduler/app/services/output_service.py:331-346 | little-endian records unpack to the values packed, for every format and values that fit |
| OutputListing.RelativePathIff | Scheduler/app/services/output_service.py:52-67 | a key belongs to a job, under a path, exactly when it is the job prefix followed by that path, which is printable, has no backslash and no empty, dot or dot-dot part |
| OutputListing.JoinSplit | Scheduler/app/services/output_service.py:64-66 | the parts a path is judged by rejoin to the path |
| OutputListing.Collect | Scheduler/app/services/output_service.py:185-230 | refused for an unsafe job, a foreign submitted key, or exactly when a usable key is listed twice; otherwise the submitted entry, then one for each usable key in order and nothing else, under distinct names |
| Records.SplitInvariant | Access_Container/interactive_access/protocol.py:131-147 | feeding any split of a stream, from any partial buffer, refuses exactly when the whole is refused and otherwise gives the same records and remainder |
| Records.ScanAppend | Access_Container/interactive_access/protocol.py:131-147 | bytes that arrive later only continue from what was left |
| Records.RoundTrip | Access_Container/interactive_access/protocol.py:54-57 | the records come back from every split of their encoding, with an empty buffer |
| Records.PrefixHeld | Access_Container/interactive_access/protocol.py:131-147 | part way through a valid stream the parser has the whole records so far and holds a strict prefix of the next |
| Records.HeldIff | Access_Container/interactive_access/protocol.py:115-147 | what the parser holds begins some record exactly when a whole header is in or no header byte so far is wrong; it is always shorter than 6 + 65530 bytes |
| Records.WrongByteHeld | Access_Container/interactive_access/protocol.py:131-147 | a wrong first byte is held without complaint, so the buffer need not begin any record |
| Records.ReaderAgrees | Access_Container/interactive_access/protocol.py:149-165 | reading whole records to the end succeeds exactly when feeding and ending does, with the same records |
| Records.Parser.Feed | Access_Container/interactive_access/protocol.py:131-147 | over the whole life of a parser: a feed raises exactly when it brings bytes and a header of the stream so far is refused, and otherwise the records handed out and the buffer are what the bytes fed so far mean, however they were split |
| Records.Parser.Eof | Access_Container/interactive_access/protocol.py:149-151 | raises exactly when the bytes fed so far are not whole records; otherwise the records handed out are all that a whole-record reader finds in them |
| Chunks.UnpackPacked | Access_Container/interactive_access/workspace_protocol.py:85-107 | unpacking undoes packing on everything that packs |
| Chunks.PackUnpacked | Access_Container/interactive_access/workspace_protocol.py:85-107 | packing undoes unpacking on everything that unpacks |
| Chunks.UploadSoFar | Worker/interactive/workspace_broker.py:196-204 | in every run what was received is exactly the chunks sent, in order, within the declared size and two mebibytes |
| Chunks.WrittenIsSent | Worker/interactive/workspace_broker.py:206-223 | whatever is written is the in-order concatenation of its chunks, of the size and digest the client named |
| Chunks.StreamableIff | Worker/interactive/workspace_broker.py:192-193 | a read streams without error exactly when its content has at most 2^47 bytes |
| Chunks.StreamRebuilds | Worker/interactive/workspace_broker.py:190-223 | the chunks of a read, sent back as an upload, are accepted and rebuild exactly the content |
| Chunks.CutWhole | Worker/interactive/workspace_broker.py:190-194 | the chunks of a read are numbered from zero, non-empty, within the limit, and concatenate to the content |
| Chunks.Session.FileChunk | Worker/interactive/workspace_broker.py:196-204 | after any accepted records, takes a chunk exactly when an upload is open, the chunk is its next by identifier and number and it fits; the upload then is its chunks concatenated |
| Chunks.Session.FileEnd | Worker/interactive/workspace_broker.py:206-223 | what is written is the concatenation of the chunks sent since the upload began, of the length and digest the client named, and only if it is text |
| Chunks.Session.StreamRead | Worker/interactive/workspace_broker.py:190-194 | the loop sends exactly the chunks of the content, raising exactly beyond 2^47 bytes |
| Demux.Conserved | Worker/interactive/ssh.py:297-315 | what a receive hands out is the front of the pending bytes and the stdout payloads to come: nothing lost, repeated or reordered |
| Demux.ClosedIff | Worker/interactive/ssh.py:300-304 | the end is reported exactly at a frame boundary with nothing left to hand out |
| Demux.FailedIff | Worker/interactive/ssh.py:286-309 | an error is reported exactly when everything before a broken or truncated frame has been handed out |
| Demux.ReceivedIsPrefix | Worker/interactive/ssh.py:297-315 | whatever sizes are asked for, the bytes received are a prefix of the stdout payloads |
| Demux.ReceivedAll | Worker/interactive/ssh.py:297-315 | with enough receives they are all of them |
| Demux.WireDecodes | Worker/interactive/ssh.py:305-312 | what the daemon frames comes through as exactly its stdout, in whole frames |
| Demux.Relay.ReadExact | Worker/interactive/ssh.py:286-295 | for every fragmentation the loop reads exactly the bytes asked for, or reports a clean or a truncated end |
| Demux.Relay.Receive | Worker/interactive/ssh.py:297-315 | for every fragmentation of the socket the loops return what `Recv` says of the bytes, and terminate |
| LogDelivery.SendLogs | Worker/managed_worker.py:89-108 | acknowledged: every call was, and the batches are the lines cut to 4096 characters, in order, each of at most 100 lines and fitting the body; otherwise the batches tried fit too, the last was not acknowledged, and what the Scheduler took is a prefix |
| LogDelivery.WeightsExact | Worker/managed_worker.py:98-103 | the running count is exactly the length of the JSON array sent |
| LogDelivery.BodyFits | Scheduler/app/main.py:60-67 | every batch makes a request body within the Scheduler's 65536 bytes, even for twelve-byte escapes |
| LogDelivery.LineAscii | Worker/managed_worker.py:98 | an escaped line is ASCII, so its characters are its bytes |
| LogDelivery.NothingLost | Worker/executor.py:918-933 | over every run of appends and flushes with failing sends the acknowledged lines followed by the buffer are all lines logged, in order, and the Scheduler took every acknowledged line at least once, in order |
| LogDelivery.OnceIff | Worker/executor.py:927-933 | the Scheduler has taken exactly the acknowledged lines exactly when no flush that failed got lines through |
| LogDelivery.TwiceIff | Worker/executor.py:927-933 | some line reaches the Scheduler twice exactly when a failed flush got lines through and a later flush does too |
| LogDelivery.DeliveredLines | Worker/executor.py:918-933 | what the Scheduler takes is the logged lines at the places counted for this, cut |
| LogDelivery.CanRepeat | Worker/executor.py:927-933 | a run in which a failed send got its line through, so that it is delivered twice |
| LogDelivery.JobLog.FlushPush | Worker/executor.py:918-933 | refines `Flush`: the buffer is emptied only by an acknowledged send, and a failed one puts its lines back in front |
| GrantWindow.RateBound | Scheduler/app/services/interactive_runtime_service.py:521-528 | over every run with a clock that does not go back, an interval of T holds at most 5 (T / 10 s + 2) admitted requests |
| GrantWindow.WithinBudget | Scheduler/app/services/interactive_runtime_service.py:521-528 | from any window the admissions up to a time are bounded by the rest of it and five for each window that can still start |
| GrantWindow.Runtime.Grant | Scheduler/app/services/interactive_runtime_service.py:521-532 | refines `Step`, answers 429 exactly when it is full, and rolls back when a later check raises |

## Left out

- One transaction reads the clock once: all clock readings inside one database transaction are taken to be the same instant, except the moment an enrollment was requested and the moment a sweep started, which may be earlier.
- Microseconds: management and Worker times are real numbers, so rounding of stored timestamps is not modelled.
- Identifiers, tickets and keys are opaque: signing, token parsing, encryption and hashing are not modelled; a ticket carries its claims and whether it verified, and a content digest is an arbitrary function.
- Address syntax: whether an address is acceptable is an attribute of the address, not parsed from text.
- In-flight key creation: the last transaction of an enrollment may happen at any later moment and any number of times, which allows more runs than the service has.
- Policy verification before a sweep or a probe is not modelled; the steps happen only after it passed.
- ManagementService.EnrollmentService.DenyRow: rows are visited in any order, so the order in which the database returns them is not captured.
- ManagementAccess.EndpointService.AssignProbes: the reply is the set of resources that have a target; addresses, ports and identifiers in it are those stored with the assignment.
- ManagementCleanup.CleanupSparesLive: asks of the control plane that keys, nodes and node identifiers are not shared and that a node is listed under its own key; without that `CleanupSparesIff` is all that holds.
- Route answers carry no protocol and no Gateway addresses, which no later step reads.
- Relay traffic: the Gateway's byte pumps and its capacity counters are not modelled, only the authorization loop and its timers.
- GatewayRelay.ClosedInTime: assumes timers that fire when asked to; a stalled event loop delays closing by as much as it stalls.
- Journal writes that bypass the coordinator's lock (the snapshot path of the interactive Worker) are not modelled; mode writes from other parts of the Worker are one step that writes blocking modes.
- Container launch and cleanup, slot counting and the executor's admission set are outside the coordinator model.
- CoordinatorService.Coordinator.Accept: only the boot identifier read can fail; a failing journal write is not modelled.
- RevisionService.Scheduler.Claim: the retry loop is not modelled; a claim is one atomic step, so the four attempts after a lost race collapse into one.
- Workspace creation with its idempotency key, build logs and the stopping of an interactive runtime after publication are left out of the revision model; creation is a step that adds a workspace with one queued revision.
- The save pipeline before publication (capability, capture, upload, expiry) is a step that moves an unpublished save between its states or fails it.
- RevisionTheorems.TagsDistinct: asks that attempt identifiers be spelled differently and equally long, as UUIDs are.
- The choice of download URL and its fallback: archives are stated over the chunks the fetch yields.
- Zip64Truncation.CutOffReadsOnlyIf: says nothing of a stream of more than 2^64 bytes that stops between the directory and the end records; for that only `ReadsIff` holds.
- The on-disk archive builder, which uses the standard library's writer, is not modelled.
- Zip64Theorems.RoundTrip: names are byte strings; UTF-8 encoding and DOS time conversion are not modelled.
- OutputListing.Collect: entry sizes and the presigned-download flag are dropped.
- JSON metadata of the stream protocols, terminal records, file operations other than write and read, and the directory and path checks are not modelled.
- Chunks.UploadSoFar: a record the session refuses ends it, so nothing is stated about records after a refusal.
- Demux.Relay.Receive: after an error the place in the stream is lost, so nothing is stated about receives after an error.
- LogDelivery.BodyFits: fence identifiers are 36 characters long and the generation at most 20, as the Scheduler issues them.
- Batch job transitions, scheduling policy, the watchdog, capacity counters, telemetry, configuration parsing, image building, user interfaces and command-line tools are not modelled: their logic is in one place each, or in the systems they call.
