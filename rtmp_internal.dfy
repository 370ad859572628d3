/** Constants, enumerations and record layouts of the RTMP protocol core
    (src/protocol/rtmp_internal.h). Nothing here has behaviour of its own;
    the functions give each enumeration its numeric code and its inverse. */
module RtmpInternal {
  import opened Wrappers

  /** One octet. */
  type byte = b: int | 0 <= b < 256

  /** Size of the per-session inbound and outbound packet tables. */
  const N_CHUNK_STREAM: nat := 8
  /** Capacity of a stream-name buffer. */
  const N_STREAM_NAME: nat := 256

  const RTMP_STREAM_LIVE: string := "live"
  const RTMP_STREAM_RECORD: string := "record"
  const RTMP_STREAM_APPEND: string := "append"

  const RTMP_LEVEL_WARNING: string := "warning"
  const RTMP_LEVEL_STATUS: string := "status"
  const RTMP_LEVEL_ERROR: string := "error"
  const RTMP_LEVEL_FINISH: string := "finish"

  /** The chunk streams the server writes on (rtmp_channel_t). */
  datatype Channel = ChannelProtocol | ChannelInvoke | ChannelAudio | ChannelVideo | ChannelData

  /** Largest chunk stream id the three-byte basic header can carry: 65535 + 64. */
  const RTMP_CHANNEL_MAX: nat := 65599

  /** The enumeration value of each channel: PROTOCOL is 2 and the rest follow. */
  function ChannelId(c: Channel): (cid: nat)
    ensures 2 <= cid <= 6
    ensures cid < N_CHUNK_STREAM && cid < RTMP_CHANNEL_MAX
  {
    match c
    case ChannelProtocol => 2
    case ChannelInvoke => 3
    case ChannelAudio => 4
    case ChannelVideo => 5
    case ChannelData => 6
  }

  /** The named channel with a given id, if any. */
  function ChannelOfId(cid: nat): (c: Option<Channel>)
    ensures c.Some? <==> 2 <= cid <= 6
    ensures c.Some? ==> ChannelId(c.value) == cid
  {
    if cid == 2 then Some(ChannelProtocol)
    else if cid == 3 then Some(ChannelInvoke)
    else if cid == 4 then Some(ChannelAudio)
    else if cid == 5 then Some(ChannelVideo)
    else if cid == 6 then Some(ChannelData)
    else None
  }

  /** Distinct channels have distinct ids, and every id names its channel back. */
  lemma ChannelIdsDistinct(c: Channel, d: Channel)
    ensures ChannelOfId(ChannelId(c)) == Some(c)
    ensures c != d ==> ChannelId(c) != ChannelId(d)
  {
  }

  /** The RTMP chunk stream id limit is the two-byte extended range 65535 plus the 64
      ids below the one-byte escape. */
  lemma ChannelMaxIsExtendedRange()
    ensures RTMP_CHANNEL_MAX == 65535 + 64
  {
  }

  // Message type ids named in the channel comments.
  const RTMP_TYPE_SET_CHUNK_SIZE: nat := 1
  const RTMP_TYPE_ABORT: nat := 2
  const RTMP_TYPE_ACKNOWLEDGEMENT: nat := 3
  const RTMP_TYPE_EVENT: nat := 4
  const RTMP_TYPE_WINDOW_ACKNOWLEDGEMENT_SIZE: nat := 5
  const RTMP_TYPE_SET_PEER_BANDWIDTH: nat := 6
  const RTMP_TYPE_AUDIO: nat := 8
  const RTMP_TYPE_VIDEO: nat := 9
  const RTMP_TYPE_FLEX_STREAM: nat := 15
  const RTMP_TYPE_FLEX_MESSAGE: nat := 17
  const RTMP_TYPE_DATA: nat := 18
  const RTMP_TYPE_INVOKE: nat := 20

  /** The channel each message type travels on, as the enumeration documents it:
      protocol control (1, 2, 3, 5, 6) and user control (4) on PROTOCOL, invoke (20) and
      flex message (17) on INVOKE, audio (8), video (9), data (18) and flex stream (15). */
  function ChannelOfType(msgType: nat): (c: Option<Channel>)
    ensures c == Some(ChannelProtocol) <==> 1 <= msgType <= 6
    ensures c == Some(ChannelInvoke) <==> msgType == 20 || msgType == 17
    ensures c == Some(ChannelAudio) <==> msgType == 8
    ensures c == Some(ChannelVideo) <==> msgType == 9
    ensures c == Some(ChannelData) <==> msgType == 18 || msgType == 15
  {
    if 1 <= msgType <= 6 then Some(ChannelProtocol)
    else if msgType == RTMP_TYPE_INVOKE || msgType == RTMP_TYPE_FLEX_MESSAGE then Some(ChannelInvoke)
    else if msgType == RTMP_TYPE_AUDIO then Some(ChannelAudio)
    else if msgType == RTMP_TYPE_VIDEO then Some(ChannelVideo)
    else if msgType == RTMP_TYPE_DATA || msgType == RTMP_TYPE_FLEX_STREAM then Some(ChannelData)
    else None
  }

  // Chunk format (section 5.3.1 of the RTMP specification).
  const BASIC_HEADER_MAX: nat := 3
  const MESSAGE_HEADER_MAX: nat := 11
  const EXTENDED_TIMESTAMP_SIZE: nat := 4
  const MAX_CHUNK_HEADER: nat := 18

  /** The longest chunk header is the longest basic header, the type-0 message header
      and the extended timestamp. */
  lemma MaxChunkHeaderIsSumOfParts()
    ensures MAX_CHUNK_HEADER == BASIC_HEADER_MAX + MESSAGE_HEADER_MAX + EXTENDED_TIMESTAMP_SIZE
  {
  }

  // Chunk header formats used by the server.
  const RTMP_CHUNK_TYPE_0: nat := 0
  const RTMP_CHUNK_TYPE_1: nat := 1

  /** rtmp_parser_state_t. */
  datatype ParserState =
    | ParseInit
    | ParseBasicHeader
    | ParseMessageHeader
    | ParseExtendedTimestamp
    | ParsePayload

  /** The enumeration value: INIT is 0 and each later state is one more. */
  function ParserStateCode(s: ParserState): (code: nat)
    ensures code <= 4
    ensures code == 0 <==> s == ParseInit
  {
    match s
    case ParseInit => 0
    case ParseBasicHeader => 1
    case ParseMessageHeader => 2
    case ParseExtendedTimestamp => 3
    case ParsePayload => 4
  }

  /** The parser state with a given enumeration value. */
  function ParserStateOfCode(code: nat): (s: Option<ParserState>)
    ensures s.Some? <==> code <= 4
    ensures s.Some? ==> ParserStateCode(s.value) == code
  {
    if code == 0 then Some(ParseInit)
    else if code == 1 then Some(ParseBasicHeader)
    else if code == 2 then Some(ParseMessageHeader)
    else if code == 3 then Some(ParseExtendedTimestamp)
    else if code == 4 then Some(ParsePayload)
    else None
  }

  /** The states are numbered in the order a chunk is parsed. */
  lemma ParserStatesAscend()
    ensures ParserStateCode(ParseInit) < ParserStateCode(ParseBasicHeader)
    ensures ParserStateCode(ParseBasicHeader) < ParserStateCode(ParseMessageHeader)
    ensures ParserStateCode(ParseMessageHeader) < ParserStateCode(ParseExtendedTimestamp)
    ensures ParserStateCode(ParseExtendedTimestamp) < ParserStateCode(ParsePayload)
  {
  }

  /** rtmp_chunk_header_t as the session fills it in. */
  datatype ChunkHeader = ChunkHeader(fmt: nat, cid: nat, timestamp: nat, length: nat, msgType: nat, streamId: nat)

  /** rtmp_packet_t: a channel's last header, timing and (for reading) its payload buffer. */
  datatype Packet = Packet(header: ChunkHeader, delta: nat, clock: nat,
                           payload: Option<seq<byte>>, capacity: nat, bytes: nat)

  /** A packet after memset to zero: every number 0 and no payload buffer. */
  function ZeroPacket(): (p: Packet)
    ensures p.payload.None? && p.header.cid == 0 && p.bytes == 0 && p.capacity == 0
  {
    Packet(ChunkHeader(0, 0, 0, 0, 0, 0), 0, 0, None, 0, 0)
  }

  /** rtmp_parser_t: header bytes gathered so far and the parse state. */
  datatype Parser = Parser(buffer: seq<byte>, basicBytes: nat, bytes: nat, state: ParserState)

  /** The parser a new session starts with. */
  function InitialParser(): (p: Parser)
    ensures |p.buffer| == MAX_CHUNK_HEADER && p.state == ParseInit && p.bytes == 0
  {
    Parser(seq(MAX_CHUNK_HEADER, _ => 0), 0, 0, ParseInit)
  }
}
