# Aero Arc control plane: a verified model

This project models the optimistic-concurrency protocols of the Aero Arc drone-operations backend and its route
geometry, and proves what they promise for every input, every interleaving and every reachable state.

**Store.** `StoreState.dfy` says, on one value, what every atomic operation of the durable store does; `Store.dfy` is
the in-memory store as a class, whose methods scan and update map fields with loops and are proved to move the contents
exactly that way. Map keys are tuples and opaque identities; digests and request hashes are the values they digest.

**Services.** `Operations.dfy` is the transition system of the service calls. Service calls work from snapshots
they read at any earlier time (`seen`, `seenFlights`), a deployment call is a program with its own copy of the record
(`DeploymentCalls.Call`), each store call is one step, and the agent may fail, answer anything or lose an answer; a call
may die anywhere, and a store write may take effect although its caller sees an error.
`IntentLifecycle.dfy` and `FleetFences.dfy` hold the invariants; `DeploymentGuarantees.dfy`, `VerifiedEvidence.dfy`,
`DispatchDeadline.dfy` and `RetryBound.dfy` hold what follows for every run. The service methods are written as step
relations because their callers interleave between any two store or agent calls; the code between two such calls is a
function.

**DSS publication.** `PublicationProtocol.dfy` composes the publication record, any number of reconciling workers with
leases and lost answers, and the DSS as a second machine of strategic coordination (ASTM F3548-21): create needs
absence, update and delete need the current OVN. Its requests are free there. `PublicationQueue.dfy` says when a closing
publication queues something new, `PublicationLeases.dfy` what a claimed revision is worth, `NotificationOutbox.dfy` is
the peer-notification queue.

**The whole system.** `ControlPlane.dfy` puts these together on one store: the service calls of `Operations.dfy` with the
publication requests they really make, activation and its compensation, the workers on every intent's publication with
the DSS, and the deliveries. Every store step is the function that the verified class implements. `IntentShifts.dfy` and
`ServiceMoves.dfy` say what a service call does to an intent and what it requests, `ControlPlaneInvariant.dfy` shows that
each publication of the whole system is a run of the protocol, and `ControlPlaneGuarantees.dfy` and
`ControlPlaneQueue.dfy` hold what follows for every run; `ControlPlaneWitness.dfy` builds a fault-free run to a confirmed
publication.

**Geometry and conflicts.** `Plane.dfy`, `RayParity.dfy` and `RouteCoverage.dfy` treat the polygon tests in exact
arithmetic over closed rings (section 3.1.6 of RFC 7946); `MissionAuthorization.dfy` carries them to whole missions and
to the conformance monitor. `VolumeBounds.dfy`, `ConflictEvaluation.dfy` and `ConflictIndex.dfy` model deconfliction.

**PostgreSQL.** `PostgresTransactions.dfy` writes the fenced operations as statement programs with locks,
`PostgresFences.dfy` interleaves their statements freely with one another and with the deployment calls, whose status
writes are single updates that check a revision and identities only.

Five results differ from what one might expect of the code; each has its exact condition or a concrete witness.

- The segment test accepts every point of the plane for an edge of zero length, so a ring with a repeated vertex
  authorizes routes anywhere (`Plane.PointOnSegmentMeaning`, `RouteCoverage.BoundaryTestExact`,
  `MissionAuthorization.RepeatedVertexCoversEverything`).
- A covered point exactly on a ring can be an exit for the conformance monitor (`MissionAuthorization.BoundaryDisagreement`);
  which ones are is `MissionAuthorization.RejectedCoveredPoints`.
- Overlapping calls for one request can begin the first dispatch after the command deadline
  (`DispatchDeadline.OverlapDispatchesLate`); one call keeps the deadline on every clock exactly when it did not replay
  a recorded expiry that its own first reading still took for unexpired (`DispatchDeadline.DeadlineKeptExactly`).
- The clock reading stored with the dispatch marker is never compared with the deadline, so the deadline holds for the
  last reading that is compared. A call with no other call for its request alive may write its marker at any later time,
  also past the deadline (`DispatchDeadline.LoneCallMarks`); the marker's own time is before the deadline exactly when
  the clock is at that write (`DispatchDeadline.MarkerTellsTime`).
- A subscriber's notification is identified by the reference version, which starts over when a reference is withdrawn
  and created again. The publication protocol alone, asked to publish after a withdrawal, confirms without queueing
  anything new (`PublicationQueue.RecreationQueuesNothing`); what a closing queues is exactly what the queue had no
  identity of (`PublicationProtocol.ClosingNotifies`). The services never ask for this: a requested withdrawal is final
  (`ControlPlaneGuarantees.WithdrawalIsFinal`), so every confirmation queues a fresh notification for every subscriber
  (`ControlPlaneQueue.ConfirmationsNotifyAll`), and so does every first withdrawal
  (`ControlPlaneQueue.FirstWithdrawalNotifiesAll`); a withdrawal requested again for the same version repeats nothing.

Assumptions. A DSS mutation takes effect, if at all, before its call returns and while the worker's lease runs, and
nobody else mutates the reference. Publication, once enabled, stays enabled, and no acceptance, completion or
cancellation spans the moment it is enabled. An aircraft's agent and operator are fixed. Generated identities are fresh,
and distinct notification identities have distinct digests. Aircraft and intent advisory lock keys are distinct, although
both use hash seed 0 in the code. Runs start from an empty store.

## Model

| member | source | states |
|---|---|---|
| Plane.PointOnSegmentMeaning | internal/store/durable/memory/spatial.go:194-205 | the segment test accepts exactly the segment's points, or everything when both ends coincide; it is right iff the edge has length or the point is the vertex |
| RayParity.ParityConstant | internal/store/durable/memory/spatial.go:129-138 | along a straight piece that touches no edge of a closed ring the even-odd test has one answer |
| RouteCoverage.PolygonCoversPoint | internal/store/durable/memory/spatial.go:101-127 | accepts exactly the points on or in the exterior ring that no hole holds strictly inside before an earlier hole's boundary |
| RouteCoverage.MidpointsDecide | internal/store/durable/memory/spatial.go:140-159 | if the end points and the midpoints between consecutive breaks are covered, every point of the leg is |
| RouteCoverage.PieceCovered | internal/store/durable/memory/spatial.go:149-158 | between two breaks coverage does not change: a covered interior point carries to every other |
| RouteCoverage.PolygonCoversSegment | internal/store/durable/memory/spatial.go:140-192 | true iff every point of the leg is accepted by the point test, for any closed rings, overlaps and touches included |
| RouteCoverage.BoundaryTestExact | internal/store/durable/memory/spatial.go:116-127 | the boundary test means the boundary iff the ring repeats no vertex; otherwise it accepts the whole plane |
| MissionAuthorization.CheckMissionCoverage | internal/store/durable/memory/spatial.go:27-48 | reports exactly the items and the legs that leave the footprint anywhere, and refuses undecodable geometry |
| MissionAuthorization.ValidateMissionAgainstIntent | internal/service/mission_import.go:178-237 | no finding iff one usable volume holds every item and every point of every straight 3D leg; the exact findings otherwise |
| MissionAuthorization.MonitorAgreesOffRings | internal/service/conformance_service.go:310-368 | what the monitor accepts is covered; off the rings the two agree |
| MissionAuthorization.AuthorizedRouteConforms | internal/service/conformance_service.go:290-301 | every point of an accepted leg, off the rings and in the window, is inside for the monitor |
| MissionAuthorization.RouteConformsOffBoundaries | internal/service/conformance_service.go:290-368 | the same for the true boundaries of rings that repeat no vertex |
| MissionAuthorization.BoundaryDisagreement | internal/service/conformance_service.go:348-368 | a square's right edge is covered by the route check and outside for the monitor |
| MissionAuthorization.RejectedCoveredPoints | internal/service/conformance_service.go:348-368 | the covered points the monitor rejects are exactly those on the exterior ring with even parity, or of odd parity in a hole whose own or an earlier hole's boundary admits them |
| Store.Store.LatestIntent | internal/store/durable/memory/durable.go:1184-1197 | finds the newest version of an intent, or that there is none |
| Store.Store.CurrentMission | internal/store/durable/memory/durable.go:1702-1711 | finds the flight's highest-version mission, or that there is none |
| Store.Store.NewestDeployment | internal/store/durable/memory/durable.go:1767-1783 | finds the last admitted deployment over all flights of an aircraft |
| Store.Store.GetDeployedMissionForActiveFlight | internal/store/durable/memory/durable.go:1570-1606 | succeeds iff exactly one flight flies the binding and a verified deployment names its current mission; conflicts iff two fly |
| Store.Store.CreateOperationalIntent | internal/store/durable/memory/durable.go:402-415 | refuses a fenced intent and an existing version, else adds the version at revision 0 |
| Store.Store.UpdateOperationalIntent | internal/store/durable/memory/durable.go:426-488 | writes only the unchanged, unfenced newest version; a terminal status also closes older accepted versions |
| Store.Store.AcceptOperationalIntent | internal/store/durable/memory/durable.go:499-529 | writes the unchanged, unfenced newest version and supersedes older accepted ones |
| Store.Store.ActivateOperationalIntent | internal/store/durable/memory/durable.go:443-459 | also refuses when another active intent has the aircraft |
| Store.Store.ReplaceOperationalIntent | internal/store/durable/memory/durable.go:1098-1143 | rewrites the version or adds its successor, and replaces that version's volumes |
| Store.Store.RecordOperationalVolume | internal/store/durable/memory/durable.go:1045-1053 | refuses a volume of a fenced intent |
| Store.Store.CreateMissionForPlannedFlight | internal/store/durable/memory/durable.go:1414-1470 | replays by key, else admits the next mission version of an unfenced planned flight with a current binding |
| Store.Store.CreateMissionDeploymentForPlannedFlight | internal/store/durable/memory/durable.go:1641-1730 | replays by key, else admits one deployment under the aircraft, mission and intent fences |
| Store.Store.StartFlightWithCurrentMissionDeployment | internal/store/durable/memory/durable.go:1744-1791 | starts only a flight whose aircraft is idle and unheld and whose newest deployment is verified for its current mission |
| Store.Store.UpdateMissionDeployment | internal/store/durable/memory/durable.go:1951-1968 | writes by revision and command identity only |
| Store.Store.ClaimDueOperationalIntentPublications | internal/store/durable/memory/durable.go:708-743 | claims, in order, the due publications with the smallest identities up to the limit, and no other |
| Store.Store.RequestOperationalIntentPublicationIfCurrent | internal/store/durable/memory/durable.go:600-645 | requests only for the newest intent version at the expected revision and status, keeping the external identity and lease |
| Store.Store.ConfirmOperationalIntentPublication | internal/store/durable/memory/durable.go:805-832 | writes the publication and queues its notifications in one step, or neither |
| Store.Store.ClaimDuePeerNotifications | internal/store/durable/memory/durable.go:845-869 | claims, in order, the due, undelivered, unleased notifications with the smallest digests up to the limit, and no other |
| IntentLifecycle.WriteKeepsLifecycle | internal/store/durable/memory/durable.go:461-529 | writing the newest version keeps versions contiguous, closed behind the newest, at most one effective, at most one active an aircraft |
| IntentLifecycle.ModifyKeepsLifecycle | internal/service/intent_service.go:312-377 | modifying an accepted version adds a draft successor, an editable one is rewritten, and the lifecycle holds |
| FleetFences.DeploymentAddedKeepsFences | internal/store/durable/memory/durable.go:1641-1700 | admission keeps the aircraft, flight, mission and intent fences |
| FleetFences.FlightStartedKeepsFences | internal/store/durable/memory/durable.go:1744-1791 | a start keeps them: one flying flight, nothing outstanding, newest deployment verified |
| FleetFences.ReconcileNeverStale | internal/service/mission_deployment.go:439-470 | the binding check of an outstanding deployment accepts its own flight, mission, intent and agent |
| Operations.NextKeepsInv | internal/service/fleet_service.go:219-295 | every step of every service call keeps the invariant and only moves records forward, fenced ones not at all |
| Operations.RunKeepsInv | internal/service/intent_service.go:171-436 | the invariant holds in every state of every run from the empty store, with arbitrarily stale snapshots |
| Operations.WriteMeansUnchanged | internal/service/intent_service.go:657-678 | a write by revision goes through only while the snapshot is still the newest record and the intent is unfenced |
| DeploymentCalls.SwapReplacesSnapshot | internal/store/durable/memory/durable.go:1951-1968 | equal revisions mean equal records: a swap succeeds iff the stored record is the snapshot |
| DeploymentGuarantees.RecordsOnlyAdvance | internal/service/mission_deployment.go:153-268 | over any run a terminal deployment never changes, dispatch never becomes undone, attempts never shrink, the command is fixed |
| DeploymentGuarantees.CommandsFollowMarkers | internal/service/mission_deployment.go:231-253 | the agent receives a command only after a durable record with the dispatch marker |
| DeploymentGuarantees.ContextErrorMeansUndispatched | internal/service/mission_deployment.go:166-229 | a context failure is recorded as temporary error iff no dispatch has begun, and then the agent has not received the command |
| DeploymentGuarantees.OutcomeNotLost | internal/service/mission_deployment.go:271-309 | with a known terminal outcome a call ends without error only when the record is terminal: an earlier terminal record, or this outcome on the newest attempt evidence |
| DeploymentGuarantees.RetryExpectsMore | internal/service/mission_deployment.go:271-309 | each retry expects a strictly later revision and offers the same outcome |
| RetryBound.RetriesBounded | internal/service/mission_deployment.go:271-309 | from its own marker on, a call still reporting has retried at most as often as others have written the record, so finite interference ends the loop |
| DeploymentGuarantees.OutstandingBindingsStable | internal/store/durable/memory/durable.go:1923-1939 | while a deployment is outstanding its flight stays planned, its mission current, and every version and volume of its intent unchanged |
| DeploymentGuarantees.RetryIsAdmitted | internal/service/mission_deployment.go:407-419 | a retry of an outstanding request is admitted again with the stored record |
| DeploymentGuarantees.GateNeverStale | internal/service/mission_deployment.go:153-164 | the gate before dispatch never finds a stale binding while the deployment is outstanding |
| DeploymentGuarantees.AircraftExclusive | internal/store/durable/memory/durable.go:1655-1700 | in every reachable state an aircraft has at most one outstanding deployment, at most one active flight, never both |
| DeploymentGuarantees.ActiveFlightServed | internal/store/durable/memory/durable.go:1570-1606 | in every reachable state an active flight's aircraft has as newest deployment a verified one of its current mission, which the lookup finds |
| DeploymentGuarantees.LifecycleReachable | internal/service/intent_service.go:389-436 | the version lifecycle in every reachable state |
| VerifiedEvidence.ActiveFlightCarriesMission | internal/service/mission_deployment.go:489-527 | in every reachable state the agent of an active flight reported the digest of the flight's current mission |
| DispatchDeadline.DeadlineKeptExactly | internal/service/mission_deployment.go:125-229 | a call keeps the deadline on every clock iff it did not replay a recorded expiry that its first reading took for unexpired |
| DispatchDeadline.FirstDispatchBeforeDeadline | internal/service/mission_deployment.go:99-253 | with a monotone clock and no two calls for one request alive at once (calls may fail or die and be retried), every first dispatch follows a check before the deadline |
| DispatchDeadline.LoneCallMarks | internal/service/mission_deployment.go:225-240 | from every reachable state with an undispatched open request, a lone call can check the clock before the deadline and write its first marker at any later time, also past the deadline, without any overlap |
| DispatchDeadline.MarkerTellsTime | internal/service/mission_deployment.go:236-241 | in every run a first marker carries the clock of its write, so it is before the deadline iff the clock is |
| DispatchDeadline.RetryDispatchesInTime | internal/service/mission_deployment.go:99-253 | after a call dies anywhere, its undispatched unexpired request can be asked for again and dispatched before the deadline, with no overlap in the whole run |
| DispatchDeadline.RetriedCall | internal/service/mission_deployment.go:125-229 | on every clock a retried call sends an unresolved dispatch until reconciliation ends, without context commands once its first reading is past the deadline; any other open record only while every reading (for a recorded expiry: the first) is before the deadline; otherwise it records the expiry |
| DispatchDeadline.RetryRecovers | internal/service/mission_deployment.go:125-253 | after a crash past the deadline and within reconciliation, an unresolved dispatch is sent again without a context command, by a run with no overlap |
| DispatchDeadline.OverlapDispatchesLate | internal/service/mission_deployment.go:323-339 | from every reachable state with an undispatched open request, two overlapping calls can dispatch it after the deadline |
| PublicationProtocol.NextKeepsInv | internal/service/deconfliction/publication.go:197-316 | every request, claim, worker step, DSS answer and clock tick keeps the publication invariant |
| PublicationProtocol.ConfirmedMatchesDss | internal/service/deconfliction/publication.go:287-316 | Confirmed means the DSS holds exactly the stored OVN, state and version, which are the desired ones; Withdrawn means it holds nothing |
| PublicationProtocol.LeasesNeverOverlap | internal/store/durable/memory/durable.go:617-768 | at any time at most one worker holds an unexpired lease, and the record shows it as taken |
| PublicationProtocol.RevisionFences | internal/store/durable/memory/durable.go:617-820 | every change raises the revision, except the holder's own renewal; a request keeps the running lease |
| PublicationProtocol.ClosingNotifies | internal/service/deconfliction/publication.go:304-399 | a subscriber of the receipt used gets a fresh record of this closing exactly when the queue held none of its identity; an older record stays as it was |
| PublicationProtocol.ConfirmationHappens | internal/service/deconfliction/publication.go:265-316 | a fault-free run from request to Confirmed exists |
| PublicationProtocol.EnqueueContains | internal/store/durable/memory/durable.go:822-832 | queueing adds every new identity and replaces nothing |
| PublicationQueue.ConfirmingQueuesAll | internal/service/deconfliction/publication.go:304-316 | as long as withdrawals are not taken back, a confirmation finds no identity of its subscribers in the queue and adds a fresh record for each |
| PublicationQueue.RecreationQueuesNothing | internal/service/deconfliction/publication.go:380-399 | a run of the protocol in which a reference is withdrawn, created again and confirmed, and its subscriber gets nothing new |
| PublicationLeases.WriteMeansUntouched | internal/store/durable/memory/durable.go:755-820 | after any store calls, a write, closing or renewal at the revision a worker read goes through iff nothing but renewals touched the record since |
| PublicationLeases.EarlierHoldersShutOut | internal/store/durable/memory/durable.go:617-695 | after a claim or a request no earlier holder can ever again write, close or renew, whatever calls follow |
| PublicationLeases.LeasedNotClaimed | internal/store/durable/memory/durable.go:677-743 | while a lease runs the record is claimed neither by name nor as due work, and stays as it is |
| IntentShifts.StillNewest | internal/service/intent_service.go:657-678 | a snapshot that is the newest record after a service call was so before it, and none of its intent's records moved |
| IntentShifts.ShiftKeepsTied | internal/service/intent_service.go:312-377 | submitting, activating or modifying an intent keeps its requested publication state fitting the newest version |
| ServiceMoves.StepEffect | internal/service/intent_service.go:406-436 | in every reachable state a service call moves at most one intent, by one of the lifecycle moves, and requests exactly the state that move calls for |
| ControlPlaneInvariant.ActivationFits | internal/service/intent_service.go:474-512 | a request of an activation that goes through names the accepted newest version, and Activated only once that version is published |
| ControlPlaneInvariant.CompensationAsks | internal/service/intent_service.go:539-579 | a compensation that goes through, whatever happened between its reads, asks for a version once stored as accepted, or for withdrawal of an ended intent only |
| ControlPlaneInvariant.DueClaimIsClaim | internal/store/durable/memory/durable.go:708-743 | claiming one due publication is claiming it by name |
| ControlPlaneGuarantees.MoveKeeps | internal/service/deconfliction/publication.go:109-316 | every move of services, workers, DSS, deliveries and clock keeps the invariant of the whole system |
| ControlPlaneGuarantees.ServedOnceAccepted | internal/service/deconfliction/publication.go:109-124 | whatever version is served to peers or held by the DSS, an earlier state of the store had it as accepted |
| ControlPlaneGuarantees.PublicationMatchesDss | internal/service/deconfliction/publication.go:287-316 | in every run with the real requests, Confirmed and Withdrawn describe what the DSS holds |
| ControlPlaneGuarantees.LeasesDisjoint | internal/store/durable/memory/durable.go:677-768 | in every run of the whole system no two workers hold unexpired leases on one intent |
| ControlPlaneWitness.ConfirmationReachable | internal/service/deconfliction/publication.go:265-316 | a fault-free run of the whole system from a new intent to a publication confirmed at the DSS, served to peers, with its subscriber's notification queued |
| ControlPlaneGuarantees.WithdrawalIsFinal | internal/service/intent_service.go:474-655 | once a withdrawal is requested for an intent, no path requests any other state again |
| ControlPlaneQueue.ConfirmationsNotifyAll | internal/service/deconfliction/publication.go:304-316 | whenever a publication becomes Confirmed, every subscriber of the receipt used gets a fresh notification |
| ControlPlaneQueue.FirstWithdrawalNotifiesAll | internal/service/deconfliction/publication.go:360-399 | whenever a publication is withdrawn for the first time, every subscriber of the receipt used gets a fresh deletion notification |
| ControlPlaneQueue.NotificationsStay | internal/store/durable/memory/durable.go:822-894 | in every run of the whole system a queued notification stays, and a delivered one never changes |
| NotificationOutbox.QueuedForever | internal/service/deconfliction/publication.go:408-441 | a queued notification is never removed or replaced, and a delivered record never changes |
| NotificationOutbox.DeliveredNeverTaken | internal/store/durable/memory/durable.go:845-894 | a delivered notification is never claimed again, whatever a worker with an expired lease reports |
| NotificationOutbox.OnlyLastTakerReports | internal/service/deconfliction/publication.go:420-440 | of several workers that took a notification only the latest can report |
| NotificationOutbox.DueClaimTakes | internal/store/durable/memory/durable.go:845-869 | claiming one due notification from the store is a take of the queue protocol |
| VolumeBounds.ExteriorBounds | internal/service/deconfliction/conflict.go:211-255 | computes the box of a valid closed exterior ring, and fails on every invalid one |
| VolumeBounds.BoxIsTight | internal/service/deconfliction/conflict.go:235-247 | the box holds every position and touches one on each side |
| VolumeBounds.ExpandedHolds | internal/service/deconfliction/conflict.go:176-200 | a volume's box, buffered or not, holds every point in or on its exterior ring |
| ConflictEvaluation.EvaluateConflicts | internal/service/deconfliction/conflict.go:14-67 | lists, in order, the own-volume problems and the finding of every own and peer pair |
| ConflictEvaluation.NoConflictsMeansApart | internal/service/deconfliction/conflict.go:14-67 | no finding iff every own volume is evaluable and apart from every peer volume in time, comparable altitude or box |
| ConflictEvaluation.PotentialConflictMutual | internal/service/deconfliction/conflict.go:44-64 | between two evaluable volumes the outcome is the same both ways, with mirrored overlap |
| ConflictEvaluation.OverlapIsIntersection | internal/service/deconfliction/conflict.go:273-294 | a reported overlap is exactly the common time window and altitude band, never empty |
| ConflictEvaluation.DiscoverOperationalIntents | internal/service/deconfliction/deconfliction.go:180-213 | keeps each reported source once and has a finding iff a provider failed |
| ConflictEvaluation.FinalizeFindings | internal/service/deconfliction/deconfliction.go:215-337 | the posture is the highest rank any finding calls for |
| ConflictEvaluation.Check | internal/service/deconfliction/deconfliction.go:134-154 | Clear iff there is an own volume, no provider failed, every own volume is evaluable and apart from every kept peer volume |
| ConflictEvaluation.ClearMeansDisjoint | internal/service/deconfliction/deconfliction.go:134-154 | after a clear check no own and peer volume under one altitude reference share a position, altitude and instant |
| ConflictEvaluation.ClearKeepsRoutesApart | internal/service/deconfliction/deconfliction.go:134-154 | after a clear check no position, altitude and instant is authorized by the route check for both volumes, unless an exterior ring repeats a vertex |
| ConflictIndex.FindCandidates | internal/store/durable/memory/spatial.go:214-253 | lists, in order and once each, exactly the other intents' versions with a volume that could overlap |
| ConflictIndex.FindOperationalIntents | internal/airspaceprovider/local/provider.go:48-118 | reports exactly the highest eligible candidate version of each intent that has volumes, by identity |
| ConflictIndex.LeftOutIsSilent | internal/store/durable/memory/spatial.go:238-261 | a volume the pre-filter leaves out yields no finding against any evaluable own volume |
| ConflictIndex.IndexExact | internal/airspaceprovider/local/provider.go:48-118 | with at most one eligible version an intent, index and provider yield the same findings in the same order as all other intents' eligible versions |
| ConflictIndex.IndexExactReachable | internal/store/durable/memory/spatial.go:214-236 | so the index is exact in every reachable state |
| PostgresTransactions.NoDeadlock | internal/store/durable/postgres/mission_deployment.go:53-164 | every transaction takes its locks in one order, so no ring of transactions can wait for one another |
| PostgresFences.FactsKept | internal/store/durable/postgres/store.go:102-161 | whatever a transaction has read stays true while it holds its locks |
| PostgresFences.DeployCommits | internal/store/durable/postgres/mission_deployment.go:53-157 | a deployment that commits is the atomic admission at that moment |
| PostgresFences.StartCommits | internal/store/durable/postgres/fleet.go:268-366 | a start that commits is the atomic start at that moment |
| PostgresFences.ImportCommits | internal/store/durable/postgres/store.go:102-210 | an import that commits is the atomic import at that moment |
| PostgresFences.EditCommits | internal/store/durable/postgres/store.go:392-640 | an intent or volume edit that commits is the atomic operation at that moment, within its own intent |
| PostgresFences.InterleavingsKeepFences | internal/store/durable/postgres/mission_deployment.go:53-203 | under every interleaving of statements and of the calls' unguarded status writes the fences hold, no lock has two holders, call snapshots are of the stored records, and commands follow markers |
| PostgresFences.CommittedRecordsAdvance | internal/store/durable/postgres/mission_deployment.go:317-341 | a committed terminal deployment never changes and an open one only moves forward, although the update checks revision and identity only |
| PostgresFences.ReplayIsAtomic | internal/store/durable/postgres/mission_deployment.go:53-157 | an answered replay is the atomic replay at that moment, up to later status writes of the same command |
| PostgresFences.CommitsAreAtomic | internal/store/durable/postgres/fleet.go:268-366 | every commit of every run takes effect as the atomic operation succeeding then; a deployment's number is the largest of its aircraft |

## Left out

- `UpdateFlightRecord`, plain `CreateMission`, plain `CreateMissionDeployment`, the unguarded `RequestOperationalIntentPublication`, `ReplaceOperationalVolumes` and the seed data: not on the modelled service paths.
- Tolerances of the geometry (1e-10, 1e-12), float32 altitude round trips and the cosine-based buffer: coordinates are exact and the buffered widening is given in degrees.
- Decoding of GeoJSON, WPL and protocol messages, hashes, UUID syntax and trimming of strings: the model starts from decoded values.
- Descriptive fields (names, messages, timestamps of transitions, mission items beyond position and altitude): opaque or omitted.
- HTTP, authorization, the gRPC pool, DSS and peer clients, telemetry, replay, dashboards, preflight checks and evidence records.
- ContextErrorMeansUndispatched: speaks of records written by failed context steps; the agent itself may also report a temporary error after a dispatch.
- ConflictIndex.FindOperationalIntents: reads one state of the store; the candidate query, the version reads and the volume lists of the code are separate reads.
- Operations.NextKeepsInv: reads that fail only end a call and have no step of their own; the service checks that only refuse a call (readiness, deconfliction, validation) are free to pass or fail, and the bindings read before a deployment is planned are read in one step.
- PostgresTransactions.NoDeadlock: speaks of the advisory locks and the flight row locks; intent, deployment and publication row locks and foreign-key locks taken inside a statement are outside the ranked order.
- PostgresFences.CommitsAreAtomic: row locks on intent versions, deployment and publication rows and foreign-key locks are not separate locks, since they are taken only under the intent lock or by single statements; the uncommitted rows of a transaction become visible as one change at its commit.
- Publication rows of PostgreSQL and `SKIP LOCKED` claims: only the in-memory store's operations are modelled for publications.
- Liveness: a deployment with unknown outcome may stay outstanding by design, so only safety is stated.
