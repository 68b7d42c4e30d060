/** The entities of internal/domain that the models share. Identities, digests and texts are opaque
    values that can only be compared; times are points on one integer axis. */
module Domain {
  import opened Plane

  datatype Option<+T> = None | Some(value: T)

  type Id = nat

  /** The identity an unset string field holds. */
  const NO_ID: Id := 0

  /** Go's zero time. */
  const ZERO_TIME := 0

  datatype IntentStatus = Draft | Submitted | Review | Accepted | Rejected | Active | Complete | Canceled | Superseded

  /** `details` stands for every field the lifecycle never inspects. */
  datatype Intent = Intent(id: Id, version: int, revision: int, operator: Id, aircraft: Id, status: IntentStatus,
                           details: Id)

  datatype AltitudeReference = NoReference | AGL | MSL | WGS84 | Relative | Barometric

  /** The inline geometry of a volume after JSON decoding, before any ring has been checked. */
  datatype Geometry = NoGeometry | ExternalGeometry | NotAPolygon | Rings(rings: Polygon)

  datatype VolumeKind = Route | Loiter | Contingency | Emergency

  type Degrees = x: real | 0.0 <= x witness 0.0

  /** `margin` is the widening that the buffer distance gives the bounding box, in degrees. */
  datatype Margin = NoMargin | InvalidMargin | Margin(latitude: Degrees, longitude: Degrees)

  datatype Volume = Volume(
    id: Id, intent: Id, intentVersion: int, geometry: Geometry, margin: Margin, kind: VolumeKind,
    minAltitudeM: real, maxAltitudeM: real, altitudeRef: AltitudeReference, startsAt: int, endsAt: int)

  datatype FlightStatus = Planned | Flying | Landed | Aborted | Interrupted

  datatype Flight = Flight(
    id: Id, operator: Id, aircraft: Id, intent: Id, intentVersion: int, status: FlightStatus, startedAt: int)

  datatype Aircraft = Aircraft(id: Id, operator: Id, agent: Id)

  /** An import request hash covers exactly these values. */
  datatype ImportRequest = ImportRequest(flight: Id, aircraft: Id, intent: Id, intentVersion: int, source: Id)

  datatype Mission = Mission(
    id: Id, version: int, operator: Id, flight: Id, aircraft: Id, intent: Id, intentVersion: int, digest: Id,
    key: Id, request: ImportRequest)

  datatype DeploymentStatus =
    | Pending | Applied | AlreadyApplied | Refused | TemporaryError | OutcomeUnknown | BindingMismatch | OnboardMismatch

  /** A deployment request hash covers exactly these values. */
  datatype DeployRequest = DeployRequest(flight: Id, mission: Id, missionVersion: int, digest: Id)

  /** The part of a deployment that identifies one command and never changes after creation. */
  datatype Command = Command(
    deployment: Id, operator: Id, flight: Id, aircraft: Id, agent: Id, intent: Id, intentVersion: int,
    mission: Id, missionVersion: int, digest: Id, id: Id, contextId: Id, clearId: Id, key: Id, request: DeployRequest,
    expiresAt: int, reconcileUntil: int)

  /** What the agent reported: item count, onboard digest, and if given, acknowledgement type and completion time. */
  datatype Report = Report(uploaded: nat, onboardDigest: Id, ackType: Option<nat>, completedAt: Option<int>)

  datatype Deployment = Deployment(
    command: Command, revision: int, status: DeploymentStatus, dispatchStarted: bool, attempts: int,
    report: Report, updatedAt: int)

  predicate Outstanding(status: DeploymentStatus) {
    status.Pending? || status.TemporaryError? || status.OutcomeUnknown?
  }

  predicate Verified(status: DeploymentStatus) {
    status.Applied? || status.AlreadyApplied?
  }

  datatype ExternalState = Unconfirmed | AcceptedState | ActivatedState | WithdrawnState

  datatype SyncStatus = SyncPending | Processing | Confirmed | Retrying | Blocked | Withdrawn

  /** The OVN of a reference the DSS does not hold. */
  const NO_OVN: nat := 0

  datatype Publication = Publication(
    intent: Id, revision: int, desiredVersion: int, publishedVersion: int, desiredState: ExternalState,
    confirmedState: ExternalState, syncStatus: SyncStatus, dssVersion: int, ovn: nat, subscription: Id,
    attempts: nat, nextAttemptAt: int, leaseUntil: Option<int>)

  /** A notification identity digests exactly these values. */
  datatype NotificationId =
    | Change(intent: Id, dssVersion: int, url: Id)
    | Deletion(intent: Id, intentVersion: int, url: Id)

  datatype Notification = Notification(
    id: NotificationId, revision: int, intent: Id, intentVersion: int, url: Id, payload: Id,
    attempts: nat, nextAttemptAt: int, leaseUntil: Option<int>, deliveredAt: Option<int>)

  datatype Outcome =
    Done | NotFound | AlreadyExists | VersionConflict | ActiveIntentConflict | IdempotencyConflict | OutsideScope
}
