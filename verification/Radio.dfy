/** The decoded form of the two protobuf envelopes, `FromRadio` and `ToRadio`, and
    the classifiers that route them. Decoding after encoding is the identity here,
    so a frame is its decoded value, or the raw bytes that do not decode. */
module Radio {
  import opened Wrappers
  import Framing

  type U32 = x: int | 0 <= x < 0x1_0000_0000
  type Blob = seq<Framing.Byte>

  /** The iOS app's two partial-config nonces. */
  const NONCE_ONLY_CONFIG: U32 := 69420
  const NONCE_ONLY_NODES: U32 := 69421

  datatype User = User(
    id: string, shortName: string, longName: string, hwModel: string, role: string,
    isLicensed: bool, publicKey: Blob, macaddr: Blob, isUnmessagable: Option<bool>)

  /** The fields of NodeInfo that a NODEINFO_APP broadcast does not carry. */
  datatype NodeExtras = NodeExtras(snr: Blob, position: Blob, deviceMetrics: Blob, isFavorite: bool, remainder: Blob)

  const NO_EXTRAS := NodeExtras([], [], [], false, [])

  datatype NodeInfo = NodeInfo(num: U32, user: Option<User>, lastHeard: U32, extras: NodeExtras)

  datatype SettingKind = Config | ModuleConfig | Channel | Metadata | DeviceuiConfig | FileInfo
  datatype StatusKind = QueueStatus | LogRecord | Rebooted

  datatype Routing = ErrorReason(code: nat) | Route | Undecodable

  datatype AppData =
    | Text(text: Blob)
    | NodeUser(user: Option<User>)
    | RoutingApp(routing: Routing)
    | Position(hasFix: bool)
    | Telemetry(stored: bool)
    | OtherApp(data: Blob)

  datatype Packet = Packet(from: U32, id: U32, rxTime: U32, rxRssi: int, content: Content, rest: Blob)
  datatype Content = Decoded(requestId: U32, app: AppData) | Opaque(data: Blob)

  datatype Body =
    | MyInfo(myNodeNum: U32, myRest: Blob)
    | NodeFrame(info: NodeInfo)
    | Setting(kind: SettingKind, data: Blob)
    | ConfigComplete(nonce: U32)
    | PacketFrame(packet: Packet)
    | Status(status: StatusKind, detail: Blob)
    | Unknown(other: Blob)

  /** A FromRadio payload; `seqId` is the envelope's own id field. */
  datatype Frame = Unparseable(raw: Blob) | Parsed(seqId: U32, body: Body) {
    predicate IsMyInfo() { Parsed? && body.MyInfo? }
    predicate IsComplete() { Parsed? && body.ConfigComplete? }
    predicate IsNode() { Parsed? && body.NodeFrame? }
    predicate IsNodeOf(num: U32) { IsNode() && body.info.num == num }
    predicate IsPacket() { Parsed? && body.PacketFrame? }

    /** isConfigFrame: never broadcast, only replayed. */
    predicate IsConfig() {
      Parsed? && (body.MyInfo? || body.NodeFrame? || body.Setting? || body.ConfigComplete?)
    }

    /** isTextMessageFrame */
    predicate IsText() {
      IsPacket() && body.packet.content.Decoded? && body.packet.content.app.Text?
    }

    /** isRoutingACKFrame: the id of the message acknowledged without error. */
    function AckedId(): (id: Option<U32>)
      ensures id.Some? ==> id.value != 0 && !IsText() && !IsConfig()
    {
      if !IsPacket() || !body.packet.content.Decoded? then None
      else match body.packet.content
        case Decoded(requestId, RoutingApp(ErrorReason(0))) => if requestId == 0 then None else Some(requestId)
        case _ => None
    }

    /** extractPacketID */
    function PacketId(): U32 {
      if IsPacket() then body.packet.id else 0
    }

    /** FromRadioTypeName, and "unparseable" where the source says so. */
    function TypeName(): string {
      if Unparseable? then "unparseable"
      else match body
        case MyInfo(_, _) => "my_info"
        case NodeFrame(_) => "node_info"
        case Setting(Config, _) => "config"
        case Setting(ModuleConfig, _) => "module_config"
        case Setting(Channel, _) => "channel"
        case Setting(Metadata, _) => "metadata"
        case Setting(DeviceuiConfig, _) => "deviceui_config"
        case Setting(FileInfo, _) => "file_info"
        case ConfigComplete(_) => "config_complete_id"
        case PacketFrame(_) => "packet"
        case Status(QueueStatus, _) => "queue_status"
        case Status(LogRecord, _) => "log_record"
        case Status(Rebooted, _) => "rebooted"
        case Unknown(_) => "unknown"
    }
  }

  /** Same constructor, and the same kind of setting or status. */
  predicate SameKind(f: Frame, g: Frame) {
    if f.Unparseable? || g.Unparseable? then f.Unparseable? && g.Unparseable?
    else
      match (f.body, g.body)
      case (MyInfo(_, _), MyInfo(_, _)) => true
      case (NodeFrame(_), NodeFrame(_)) => true
      case (Setting(j, _), Setting(k, _)) => j == k
      case (ConfigComplete(_), ConfigComplete(_)) => true
      case (PacketFrame(_), PacketFrame(_)) => true
      case (Status(j, _), Status(k, _)) => j == k
      case (Unknown(_), Unknown(_)) => true
      case _ => false
  }

  /** The type names that drive the read loop's switch and label the counts are one
      per kind of frame. */
  lemma TypeNamesAreKinds(f: Frame, g: Frame)
    ensures f.TypeName() == g.TypeName() <==> SameKind(f, g)
    ensures f.TypeName() == "my_info" <==> f.IsMyInfo()
    ensures f.TypeName() == "config_complete_id" <==> f.IsComplete()
    ensures f.TypeName() == "node_info" <==> f.IsNode()
  {
  }

  datatype ToRadio =
    | BadToRadio(raw: Blob)
    | WantConfigId(nonce: U32)
    | Disconnect
    | ToPacket(packet: Packet)
    | OtherToRadio(data: Blob)

  /** The FromRadio form of a client's packet: sender and receive time are filled
      in where the client left them zero. */
  function AsFromRadio(p: Packet, myNodeNum: U32, now: U32): Frame {
    var from := if p.from == 0 && myNodeNum != 0 then myNodeNum else p.from;
    var rxTime := if p.rxTime == 0 then now else p.rxTime;
    Parsed(0, PacketFrame(p.(from := from, rxTime := rxTime)))
  }
}
