/** The vocabulary of the HTTP/1.x parser: its states, its fields and the
    callbacks it makes.  One `char` stands for one octet of the input. */
module HttpTypes {
  const CR := '\r'
  const LF := '\n'

  /** HTTP_MAX_HEADER_SIZE */
  const MAX_HEADER_SIZE: nat := 80 * 1024

  const U32: nat := 0x1_0000_0000
  const U64: nat := 0x1_0000_0000_0000_0000

  /** ULLONG_MAX, which doubles as "no Content-Length seen". */
  const NO_LENGTH: nat := U64 - 1

  /** Up to this buffer length the 32-bit header counter cannot wrap around. */
  const SAFE_LENGTH: nat := U32 - 1 - MAX_HEADER_SIZE

  datatype Kind = Request | Response | Both

  datatype Method =
    | Delete | Get | Head | Post | Put | Connect | Options | Trace | Copy | Lock | MkCol | Move
    | PropFind | PropPatch | Search | Unlock | Report | MkActivity | Checkout | Merge | MSearch
    | Notify | Subscribe | Unsubscribe | Patch | Purge | MkCalendar

  /** enum state, grouped by the part of the message a state belongs to. */
  datatype State =
    | Start(start: StartState)
    | StatusLine(status: StatusState)
    | InMethod
    | InUrl(url: UrlState)
    | InVersion(version: VersionState)
    | InHeader(header: HeaderState)
    | InChunk(chunk: ChunkState)
    | InBody(body: BodyState)

  datatype StartState = Dead | StartReqOrRes | ResOrRespH | StartRes | StartReq

  datatype StatusState =
    | ResH | ResHT | ResHTT | ResHTTP
    | ResFirstHttpMajor | ResHttpMajor | ResFirstHttpMinor | ResHttpMinor
    | ResFirstStatusCode | ResStatusCode | ResStatusStart | ResStatus | ResLineAlmostDone

  /** The states of parse_url_char; UrlDead is s_dead. */
  datatype UrlState =
    | UrlDead | SpacesBeforeUrl | Schema | SchemaSlash | SchemaSlashSlash
    | ServerStart | Server | ServerWithAt | Path | QueryStart | Query | FragmentStart | Fragment

  datatype VersionState =
    | HttpStart | HttpH | HttpHT | HttpHTT | HttpHTTP
    | FirstHttpMajor | HttpMajor | FirstHttpMinor | HttpMinor | LineAlmostDone

  datatype HeaderState =
    | FieldStart | Field | DiscardWs | DiscardWsAlmostDone | DiscardLws
    | ValueStart | Value | ValueLws | AlmostDone | HeadersAlmostDone | HeadersDone

  datatype ChunkState = SizeStart | Size | Parameters | SizeAlmostDone | ChunkData | DataAlmostDone | DataDone

  datatype BodyState = Identity | IdentityEof | MessageDone

  const DEAD := Start(Dead)

  /** PARSING_HEADER: every state up to and including s_headers_done. */
  predicate ParsingHeader(s: State) {
    match s
    case InChunk(k) => !k.ChunkData? && !k.DataAlmostDone? && !k.DataDone?
    case InBody(_) => false
    case _ => true
  }

  datatype HState =
    | General | HC | HCO | HCON
    | MatchingConnection | MatchingProxyConnection | MatchingContentLength
    | MatchingTransferEncoding | MatchingUpgrade
    | Connection | ContentLength | TransferEncoding | Upgrade
    | MatchingChunked | MatchingTokenStart | MatchingKeepAlive | MatchingClose
    | MatchingConnectionUpgrade | MatchingToken
    | Chunked | KeepAlive | Close | ConnectionUpgrade

  /** The six bits of the `flags` field.  F_SKIPBODY is bit 6, so it has no place in it. */
  datatype Flags = Flags(
    chunked: bool, keepAlive: bool, close: bool, connectionUpgrade: bool, trailing: bool, upgrade: bool)

  const NO_FLAGS := Flags(false, false, false, false, false, false)

  datatype Errno =
    | OK
    | CallbackFailed(event: Callback)
    | InvalidEofState | HeaderOverflow | ClosedConnection | InvalidVersion | InvalidStatus
    | InvalidMethod | InvalidUrl | LfExpected | InvalidHeaderToken | InvalidContentLength
    | InvalidChunkSize | InvalidConstant | Strict | Paused

  datatype Channel = UrlData | StatusData | FieldData | ValueData | BodyData

  datatype Callback = OnMessageBegin | OnHeadersComplete | OnMessageComplete | OnData(channel: Channel)

  /** One call made to the application. */
  datatype Event =
    | MessageBegin | HeadersComplete | MessageComplete
    | Data(channel: Channel, bytes: string)
  {
    function Callback(): Callback {
      match this
      case MessageBegin => OnMessageBegin
      case HeadersComplete => OnHeadersComplete
      case MessageComplete => OnMessageComplete
      case Data(channel, _) => OnData(channel)
    }
  }

  /** What a callback does: return 0, return 0 after pausing the parser, return 1, return anything else. */
  datatype Verdict = Proceed | Pause | ReturnOne | Abort

  /** The parser fields that decide what happens next.  `tally` is the exact number of octets
      consumed in header states since the counter was last cleared, which the field `nread`
      approximates from above; `peak` is the highest tally that has been cleared. */
  datatype Core = Core(
    kind: Kind, flags: Flags, state: State, hstate: HState, index: nat, length: nat,
    major: nat, minor: nat, status: nat, verb: Method, upgrade: bool, tally: nat, peak: nat)
}
