/** The envelopes a session carries, reduced to what the broker reads. */
module Messages {
  datatype Option<+T> = None | Some(value: T)

  datatype Heartbeat = Heartbeat(generation: nat, activity: string, readerSpine: int, readerPage: int)

  /** The oneof of `SimToServer`. `Absent` is an envelope without a payload. */
  datatype Payload =
    | Register(instanceId: string)
    | Beat(heartbeat: Heartbeat)
    | Snapshot
    | SnapshotError(message: string)
    | Log(component: string, text: string)
    | InputAck(accepted: bool, reason: string)
    | InputObserved
    | Goodbye
    | UiResult(painted: bool, generation: nat, activity: string)
    | Absent

  datatype SimToServer = SimToServer(seqNo: nat, corr: nat, payload: Payload)

  datatype Command =
    | Inject(name: string)
    | SnapshotRequest
    | SetInjectEnabled(enabled: bool)
    | Shutdown
    | SetSessionView(readMask: seq<string>, excludeLogComponents: seq<string>)

  datatype ServerToSim = ServerToSim(corr: nat, ackRequested: bool, command: Command)

  /** Which inbound payload completes a waiter. */
  datatype WaitKind = WaitAny | WaitInputAck | WaitUiResult | WaitSnapshot

  const INSTANCE_ID_MAX_LEN: nat := 64

  /** Ids are counted in bytes by the source; here one character is one byte. */
  predicate IsValidInstanceId(id: string) {
    id != "" && |id| <= INSTANCE_ID_MAX_LEN
  }

  predicate IsHeartbeat(msg: SimToServer) {
    msg.payload.Beat?
  }

  /** The oneof member's name, as field masks spell it. */
  function PayloadName(msg: SimToServer): Option<string> {
    match msg.payload
    case Register(_) => Some("register")
    case Beat(_) => Some("heartbeat")
    case Snapshot => Some("snapshot")
    case SnapshotError(_) => Some("snapshot_error")
    case Log(_, _) => Some("log")
    case InputAck(_, _) => Some("input_ack")
    case InputObserved => Some("input_observed")
    case Goodbye => Some("goodbye")
    case UiResult(_, _, _) => Some("ui_result")
    case Absent => None
  }

  /** An empty mask emits everything; otherwise the payload's name must be listed. */
  predicate Visible(mask: seq<string>, msg: SimToServer) {
    mask == [] || (PayloadName(msg).Some? && PayloadName(msg).value in mask)
  }

  predicate Excluded(components: seq<string>, msg: SimToServer) {
    msg.payload.Log? && msg.payload.component in components
  }

  predicate WaiterMatches(kind: WaitKind, msg: SimToServer) {
    match kind
    case WaitAny => true
    case WaitInputAck => msg.payload.InputAck?
    case WaitUiResult => msg.payload.UiResult? || (msg.payload.InputAck? && !msg.payload.accepted)
    case WaitSnapshot => msg.payload.Snapshot? || msg.payload.SnapshotError?
  }
}
