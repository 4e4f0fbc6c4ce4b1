/** Radio constants, counters, frames and dashboard events (domain/lora.go, packet.go, service/stats.go,
    protocol/events.go). */
module Protocol {
  import opened MeshGraph

  datatype Option<+T> = None | Some(value: T)
  newtype byte = x: int | 0 <= x < 256

  const MIN_SF := 7
  const MAX_SF := 12
  const MAX_RETRIES := 3
  const MAX_ID_LENGTH := 100
  const DEDUP_TTL := 30000        // milliseconds, like every time below
  const ACK_SENDER_TTL := 120000
  const RETRY_GUARD := 500

  function MaxPayloadBytes(sf: int): int {
    if sf <= 8 then 242 else if sf == 9 then 115 else 51
  }

  function AckTimeout(sf: int): int {
    var table := map[7 := 1000, 8 := 1500, 9 := 2500, 10 := 4000, 11 := 6500, 12 := 10000];
    if sf in table then table[sf] else if sf < MIN_SF then table[MIN_SF] else table[MAX_SF]
  }

  datatype SessionParams = SessionParams(spreadingFactor: int, txPowerDbm: int, weatherSeverity: real)

  datatype Stat = TransmitTotal | DroppedInvalid | DroppedSFLimit | DroppedMaxHops | DroppedAirLoss
                | DroppedOutOfRange | DroppedNoPosition | DroppedTargetOffline | DuplicatesFiltered
                | ForwardedToNode | DeliveredToEdge | AcksRelayed | AcksDropped | AcksStale
                | PingsAccepted | PingsRateLimited

  datatype DropReason = SfLimitExceeded | MaxHopsExceeded | TransmitterNoPosition | TargetNoPosition
                      | TargetOffline | AirLoss | OutOfRange

  // The counter each s.drop(...) call names next to its reason.
  function DropStat(reason: DropReason): Stat {
    match reason
    case SfLimitExceeded => DroppedSFLimit
    case MaxHopsExceeded => DroppedMaxHops
    case TransmitterNoPosition => DroppedNoPosition
    case TargetNoPosition => DroppedNoPosition
    case TargetOffline => DroppedTargetOffline
    case AirLoss => DroppedAirLoss
    case OutOfRange => DroppedOutOfRange
  }

  datatype EventType = TransmitEvent | ForwardEvent | DeliverEvent | DropEvent | DuplicateEvent
                     | AckEvent | AckDropEvent | UnknownEvent
  datatype PacketEvent = PacketEvent(kind: EventType, packetId: string, from: string, to: string,
      reason: Option<DropReason>)

  // The Base64 text of a frame as its decoder sees it.
  datatype Payload = NoText | NotBase64 | Bytes(data: seq<byte>)

  datatype TransmitPacket = TransmitPacket(packetId: string, originNode: string, targetParent: string,
                                           hopCount: int, routingPath: seq<string>, payload: Payload)

  datatype EnvelopeFault = NoPacketId | NoOrigin | NoTarget | BadHopCount | EmptyPath | PathTooLong | NoPayload
                         | BadPathEntry

  // The code of the error event a refused transmitter gets.
  datatype RejectCode = InvalidEnvelope(fault: EnvelopeFault) | TransmitterMismatch | InvalidBase64 | SessionUnavailable

  predicate GoodId(id: string) { id != "" && |id| <= MAX_ID_LENGTH }

  function Validate(p: TransmitPacket): Option<EnvelopeFault> {
    if !GoodId(p.packetId) then Some(NoPacketId)
    else if !GoodId(p.originNode) then Some(NoOrigin)
    else if !GoodId(p.targetParent) then Some(NoTarget)
    else if p.hopCount < 1 then Some(BadHopCount)
    else if |p.routingPath| == 0 then Some(EmptyPath)
    else if |p.routingPath| > MAX_HOPS + 1 then Some(PathTooLong)
    else if p.payload.NoText? then Some(NoPayload)
    else if exists i :: 0 <= i < |p.routingPath| && !GoodId(p.routingPath[i]) then Some(BadPathEntry)
    else None
  }

  function Transmitter(p: TransmitPacket): string
    requires |p.routingPath| > 0
  {
    p.routingPath[|p.routingPath| - 1]
  }
}
