/** Constants, the tag cache record and the vocabulary of outgoing messages of an RTMP
    session (src/app/app_rtmp_conn.h, plus the constants app_rtmp_conn.cpp uses). */
module RtmpConnDefs {
  import opened Wrappers
  import opened RtmpInternal

  const RTMP_FMSVER: string := "FMS/3,0,1,123"
  const RTMP_CAPABILITIES: nat := 31
  /** The chunk size the server announces and switches to on connect. */
  const RTMP_OUTPUT_CHUNK_SIZE: nat := 4096
  /** Return value a user handler would give to defer rtmp_server_start. */
  const RTMP_SERVER_ASYNC_START: int := 0x12345678
  /** Values of `start.play`: which reply sequence rtmp_server_start sends. */
  const RTMP_SERVER_ONPLAY: nat := 1
  const RTMP_SERVER_ONPUBLISH: nat := 2

  // Values from headers that are not part of this model (rtmp_handshake.h,
  // rtmp_chunk_header.h, rtmp_control_message.h); they are the RTMP specification's.
  /** Size of C1, C2, S1 and S2 (section 5.2.3 of the RTMP specification). */
  const RTMP_HANDSHAKE_SIZE: nat := 1536
  /** Protocol version carried by C0 and S0. */
  const RTMP_VERSION: nat := 3
  /** Default maximum chunk size (section 5.4.1 of the RTMP specification). */
  const RTMP_CHUNK_SIZE: nat := 128
  /** Limit type "dynamic" of Set Peer Bandwidth (section 5.4.5 of the RTMP specification). */
  const RTMP_BANDWIDTH_LIMIT_DYNAMIC: nat := 2

  /** The session's scratch buffer, `uint8_t payload[2 * 1024]`. */
  const PAYLOAD_SIZE: nat := 2 * 1024
  /** The session's reply buffer, `uint8_t handshake[2 * RTMP_HANDSHAKE_SIZE + 1]`. */
  const HANDSHAKE_BUFFER_SIZE: nat := 2 * RTMP_HANDSHAKE_SIZE + 1
  /** Sizes of the session's `stream_name` and `stream_type` buffers. */
  const STREAM_NAME_SIZE: nat := 256
  const STREAM_TYPE_SIZE: nat := 18

  /** Initial protocol parameters set by the session constructor. */
  const DEFAULT_WINDOW_SIZE: nat := 5000000
  const DEFAULT_PEER_BANDWIDTH: nat := 5000000
  const DEFAULT_BUFFER_LENGTH_MS: nat := 30000

  /** Values of `start.play` ever stored: cleared, play pending, publish pending. */
  predicate IsStartPlay(v: nat) {
    v == 0 || v == RTMP_SERVER_ONPLAY || v == RTMP_SERVER_ONPUBLISH
  }

  /** Length of the S0+S1+S2 reply: one version byte and two 1536-byte blocks. */
  function HandshakeReplySize(): (n: nat)
    ensures n == 3073
  {
    1 + RTMP_HANDSHAKE_SIZE + RTMP_HANDSHAKE_SIZE
  }

  /** The reply buffer holds exactly one S0+S1+S2 reply. */
  lemma HandshakeBufferHoldsOneReply()
    ensures HANDSHAKE_BUFFER_SIZE == HandshakeReplySize()
  {
  }

  /** A C1 or C2 copy of at most the missing part of a block, at an offset inside it,
      stays inside the scratch buffer. */
  lemma ScratchCopyInBounds(offset: nat, n: nat)
    requires offset < RTMP_HANDSHAKE_SIZE && n <= RTMP_HANDSHAKE_SIZE - offset
    ensures offset + n <= RTMP_HANDSHAKE_SIZE < PAYLOAD_SIZE
  {
  }

  /** What `snprintf(buf, size - 1, "%s", s)` leaves in a buffer of `size` bytes: at
      most size - 2 characters of s. */
  function Truncate(s: string, size: nat): (t: string)
    requires size >= 2
    ensures |t| <= size - 2 && |t| <= |s|
    ensures t == s[..|t|]
    ensures |s| <= size - 2 ==> t == s
  {
    if |s| <= size - 2 then s else s[..size - 2]
  }

  /** The three FLV tag types a publisher sends. */
  datatype TagKind = Audio | Video | Script

  /** FLV tag type codes FLV_TYPE_AUDIO, FLV_TYPE_VIDEO and FLV_TYPE_SCRIPT. */
  function FlvTagType(k: TagKind): (t: nat)
    ensures t == 8 <==> k == Audio
    ensures t == 9 <==> k == Video
    ensures t == 18 <==> k == Script
  {
    match k
    case Audio => 8
    case Video => 9
    case Script => 18
  }

  /** TagBuffer: a copy of one tag (its `bytes` field is |data|). */
  datatype TagBuffer = TagBuffer(data: seq<byte>, timestamp: nat)

  /** rtmp_connect_t as the connect parser fills it. */
  datatype ConnectInfo = ConnectInfo(app: string, flashver: string, tcUrl: string, fpad: nat,
                                     audioCodecs: real, videoCodecs: real, videoFunction: real,
                                     encoding: real)

  /** AMF object encodings accepted by connect. */
  const RTMP_ENCODING_AMF_0: real := 0.0
  const RTMP_ENCODING_AMF_3: real := 3.0

  /** A connect record before the parser has filled anything in. */
  function EmptyConnectInfo(): (c: ConnectInfo)
    ensures c.encoding == RTMP_ENCODING_AMF_0 && c.app == ""
  {
    ConnectInfo("", "", "", 0, 0.0, 0.0, 0.0, RTMP_ENCODING_AMF_0)
  }

  /** Protocol and user control messages, encoded by a helper and handed straight to Send. */
  datatype Control =
    | HandshakeReply(c1: seq<byte>)          // S0 + S1 + S2, echoing the client's C1
    | Acknowledgement(sequenceNumber: nat)   // section 5.4.3 of the RTMP specification
    | WindowAckSize(windowSize: nat)         // section 5.4.4 of the RTMP specification
    | PeerBandwidth(bandwidth: nat, limitType: nat) // section 5.4.5 of the RTMP specification
    | SetChunkSize(chunkSize: nat)           // section 5.4.1 of the RTMP specification
    | StreamBegin(streamId: nat)             // user control event 0
    | StreamIsRecorded(streamId: nat)        // user control event 4

  /** AMF0 command bodies the server writes. */
  datatype Reply =
    | OnStatus(transaction: real, level: string, code: string, description: string)
    | ConnectResult(transaction: real, fmsVer: string, capabilities: nat, code: string,
                    level: string, description: string, encoding: real)
    | CreateStreamResult(transaction: real, streamId: nat)
    | StreamLengthResult(transaction: real, duration: real)
    | SampleAccess

  /** One message the session hands to the transport, in production order. */
  datatype Message =
    | Raw(control: Control)
      /** A command sent by rtmp_chunk_write with a type-0 header on the invoke channel,
          timestamp 0, of the given message type and message stream. */
    | Command(msgType: nat, streamId: nat, reply: Reply)
      /** A media tag sent by rtmp_chunk_write. */
    | Media(header: ChunkHeader, data: seq<byte>)

  /** The header rtmp_server_send_control and rtmp_server_rtmp_sample_access build for a
      command body of `length` encoded bytes. */
  function CommandHeader(msgType: nat, streamId: nat, length: nat): (h: ChunkHeader)
    ensures h.fmt == RTMP_CHUNK_TYPE_0 && h.cid == ChannelId(ChannelInvoke) && h.timestamp == 0
  {
    ChunkHeader(RTMP_CHUNK_TYPE_0, ChannelId(ChannelInvoke), 0, length, msgType, streamId)
  }

  /** The onStatus reply of rtmp_server_send_onstatus, on the session's message stream:
      level "status" and the success code when r is 0, level "error" and the failure code
      otherwise. */
  function StatusMessage(streamId: nat, transaction: real, r: int, success: string,
                         fail: string, description: string): (m: Message)
    ensures m.Command? && m.msgType == RTMP_TYPE_INVOKE && m.streamId == streamId
    ensures m.reply.OnStatus? && m.reply.transaction == transaction
    ensures r == 0 ==> m.reply.level == RTMP_LEVEL_STATUS && m.reply.code == success
    ensures r != 0 ==> m.reply.level == RTMP_LEVEL_ERROR && m.reply.code == fail
  {
    Command(RTMP_TYPE_INVOKE, streamId,
            OnStatus(transaction, if r == 0 then RTMP_LEVEL_STATUS else RTMP_LEVEL_ERROR,
                     if r == 0 then success else fail, description))
  }
}
