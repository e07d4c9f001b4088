/** The vocabulary of OCPP-J messages the engine works with.

    Payloads are opaque apart from the three views the engine parses out of them, and action
    names are an enumeration of those the engine treats specially plus every other name. */
module Messages {
  import opened Basics

  datatype Version = V16 | V201 | V21

  datatype Kind = CALL | SEND

  datatype Origin = FromStation | FromCsms | FromBoth

  datatype Role = ChargingStation | Csms

  datatype Action =
    | BootNotification
    | Heartbeat
    | TransactionEvent
    | StartTransaction
    | StopTransaction
    | MeterValues
    | TriggerMessage
    | ExtendedTriggerMessage
    | SignChargePointCertificate
    | SignCertificate
    | NotifyPeriodicEventStream
    | Other(name: string)

  datatype BootState = Idle | Pending | Accepted | Rejected

  /** What a `BootNotificationResponse` parse yields; `status` is `None` for a spelling the
      engine does not know. */
  datatype BootAnswer = BootAnswer(status: Option<BootState>, interval: Option<nat>, time: Option<int>)

  /** An opaque payload with the views `serde` would give of it. */
  datatype Payload = Payload(
    text: string,
    boot: Option<BootAnswer>,
    time: Option<int>,
    requested: Option<Action>)

  const EMPTY_PAYLOAD := Payload("{}", None, None, None)

  type MessageId = string

  type Token = nat

  type Seq = nat

  /** The actions a version defines, with the peer that may originate each. */
  type Catalogue = map<(Version, Action), Origin>

  /** The kind of an action: the 2.1 event stream is the only `SEND`. */
  function KindOf(known: Catalogue, version: Version, action: Action): (r: Option<Kind>)
  {
    if (version, action) !in known then None
    else if version == V21 && action == NotifyPeriodicEventStream then Some(SEND)
    else Some(CALL)
  }

  function OriginOf(known: Catalogue, version: Version, action: Action): (r: Origin)
  {
    if (version, action) in known then known[(version, action)] else FromBoth
  }

  /** Whether one side of the connection may originate messages of this origin. */
  predicate MaySend(origin: Origin, side: Role)
  {
    match side
    case ChargingStation => origin != FromCsms
    case Csms => origin != FromStation
  }

  function Peer(role: Role): (r: Role)
  {
    if role == ChargingStation then Csms else ChargingStation
  }

  predicate IsTransactionRelated(version: Version, action: Action)
  {
    match version
    case V16 => action == StartTransaction || action == StopTransaction || action == MeterValues
    case _ => action == TransactionEvent
  }

  /** The union over versions of `IsTransactionRelated`: what a journal may mark transactional. */
  predicate TransactionAction(action: Action)
  {
    action == StartTransaction || action == StopTransaction || action == MeterValues
    || action == TransactionEvent
  }

  predicate HasExtendedMessageTypes(version: Version) { version == V21 }

  /** The follow-up calls a CSMS request licenses, beyond the ones a trigger names. */
  function SolicitedBy(action: Action): (r: set<Action>)
  {
    match action
    case Other(name) =>
      if name == "GetBaseReport" || name == "GetReport" then {Other("NotifyReport")}
      else if name == "GetMonitoringReport" then {Other("NotifyMonitoringReport")}
      else if name == "CustomerInformation" then {Other("NotifyCustomerInformation")}
      else if name == "GetDisplayMessages" then {Other("NotifyDisplayMessages")}
      else if name == "GetChargingProfiles" then {Other("ReportChargingProfiles")}
      else if name == "GetDERControl" then {Other("ReportDERControl")}
      else if name == "GetLog" then {Other("LogStatusNotification")}
      else if name == "UpdateFirmware" || name == "SignedUpdateFirmware" then
        {Other("FirmwareStatusNotification"), Other("SignedFirmwareStatusNotification")}
      else if name == "PublishFirmware" then {Other("PublishFirmwareStatusNotification")}
      else if name == "GetDiagnostics" then {Other("DiagnosticsStatusNotification")}
      else {}
    case _ => {}
  }
}
