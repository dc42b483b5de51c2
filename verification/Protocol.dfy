/** What clients ask of the service and what it reports back (crates/varmlen-protocol/src/lib.rs). */
module Protocol {
  import opened Wrappers
  import opened Json

  datatype Endpoint = Endpoint(address: string, port: nat)

  datatype AppSelector = AppSelector(canonicalPath: string, basename: string)

  datatype ConnectRequest = ConnectRequest(
    xrayVersion: string,
    xrayConfig: Json,
    validationConfig: Json,
    serverEndpoints: seq<Endpoint>,
    excludedApps: seq<AppSelector>,
    appsSelective: bool,
    killswitch: bool,
    allowLan: bool)

  datatype ConnectionPhase =
    | Disconnected
    | Validating
    | Holding
    | Starting
    | Connected
    | Stopping
    | Blocked
    | Restoring
    | BlockedError

  datatype ServiceState = ServiceState(
    phase: ConnectionPhase,
    operationId: nat,
    splitActive: bool,
    dnsProtected: bool,
    networkBlocked: bool)

  datatype ServiceError =
    | ValidationFailed
    | HoldFailed
    | XrayStartFailed
    | HealthCheckFailed
    | RestoreFailed
    | CleanupFailed
    | Internal

  type Reply = Outcome<ServiceError>

  /** The connection the service wants to be in, as journaled on disk (service/src/state_record.rs). */
  datatype DesiredPhase =
    | WantDisconnected
    | WantConnecting(candidate: ConnectRequest, previous: Option<ConnectRequest>, requestedKillSwitch: bool)
    | WantConnected(request: ConnectRequest)
    | WantDisconnecting(keepBlocked: bool)
    | WantBlocked(reason: string)

  datatype DesiredState = DesiredState(operationId: nat, phase: DesiredPhase)
}
