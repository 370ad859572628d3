/** The RTMP server sessions of src/app/app_rtmp_conn.cpp: RtmpConn (one client
    connection: handshake, acknowledgement counter, write path, command callbacks and
    the media it relays), LiveConsumer and LiveSource (a live stream and its players),
    and RtmpServer, which holds what the source keeps in file-scope globals: the stream
    registry, the handle and uuid tables, the response queue and the id generators.

    Encoders whose bodies are not part of this model (the chunk writer, the AMF0
    writers, rtmp_handshake_s0/s1/s2 and the control message writers) are represented
    by the message they produce: a session's `outbox` lists, in order, every message it
    hands to the transport. Bytes handed to Send directly go through `transport`. */
module AppRtmpConn {
  import opened Wrappers
  import opened RtmpInternal
  import opened RtmpConnDefs
  import opened HandshakeSpec
  import opened AckSpec
  import opened TransportSpec
  import opened MediaSpec
  import opened RtmpInvoke

  /** CONN_STATE_*. */
  datatype ConnState = ConnIdle | ConnConnected | ConnOpen | ConnClosed

  /** NETLIB_INVALID_HANDLE. */
  const NETLIB_INVALID_HANDLE: int := -1

  const UINT32_MODULUS: nat := 0x1_0000_0000

  /** `id = ++generator; if (id == 0) id = ++generator;` on a 32-bit generator. */
  function NextId(generator: nat): (id: nat)
    requires generator < UINT32_MODULUS
    ensures 0 < id < UINT32_MODULUS
    ensures generator + 1 < UINT32_MODULUS ==> id == generator + 1
    ensures generator + 1 == UINT32_MODULUS ==> id == 1
  {
    var next := (generator + 1) % UINT32_MODULUS;
    if next == 0 then next + 1 else next
  }

  /** The ids k successive sessions receive. */
  function IdsFrom(generator: nat, k: nat): (ids: seq<nat>)
    requires generator < UINT32_MODULUS
    ensures |ids| == k
    decreases k
  {
    if k == 0 then [] else [NextId(generator)] + IdsFrom(NextId(generator), k - 1)
  }

  /** Until the generator wraps, sessions get consecutive, hence distinct and nonzero,
      ids. */
  lemma {:induction false} IdsConsecutiveBeforeWrap(generator: nat, k: nat)
    requires generator + k < UINT32_MODULUS
    ensures forall i :: 0 <= i < k ==> IdsFrom(generator, k)[i] == generator + 1 + i
    decreases k
  {
    if k > 0 {
      IdsConsecutiveBeforeWrap(generator + 1, k - 1);
    }
  }

  /** The s_lives key of a stream: the application name, "/", the stream name. */
  function StreamKey(app: string, streamName: string): (key: string)
    ensures |key| == |app| + 1 + |streamName|
    ensures key[..|app|] == app && key[|app|] == '/' && key[|app| + 1..] == streamName
  {
    app + "/" + streamName
  }

  /** When application names contain no "/", the key names one (app, stream) pair. */
  lemma StreamKeyInjective(app1: string, name1: string, app2: string, name2: string)
    requires '/' !in app1 && '/' !in app2
    requires StreamKey(app1, name1) == StreamKey(app2, name2)
    ensures app1 == app2 && name1 == name2
  {
    var key := StreamKey(app1, name1);
    assert |app1| == |app2|;
  }

  /** The reply sequence of rtmp_server_start for a pending play or publish. */
  function StartReplies(play: nat, reset: nat, transaction: real, streamId: nat, r: int, msg: string)
    : seq<Message>
  {
    if play == RTMP_SERVER_ONPLAY then
      (if r == 0 then
         [Raw(StreamBegin(streamId))]
         + (if reset != 0 then
              [StatusMessage(streamId, transaction, 0, "NetStream.Play.Reset", "NetStream.Play.Failed", "")]
            else [])
       else [])
      + [StatusMessage(streamId, transaction, r, "NetStream.Play.Start",
                       if msg != "" then msg else "NetStream.Play.Failed", "Start video on demand"),
         Raw(StreamIsRecorded(streamId)),
         Command(RTMP_TYPE_DATA, streamId, SampleAccess)]
    else if play == RTMP_SERVER_ONPUBLISH then
      (if r == 0 then [Raw(StreamBegin(streamId))] else [])
      + [StatusMessage(streamId, transaction, r, "NetStream.Publish.Start",
                       if msg != "" then msg else "NetStream.Publish.BadName", "")]
    else []
  }

  /** The replies to a successful connect: Window Acknowledgement Size, Set Peer Bandwidth
      (dynamic), Set Chunk Size 4096, then the _result carrying the client's encoding. */
  function ConnectReplies(windowSize: nat, peerBandwidth: nat, transaction: real, encoding: real)
    : (out: seq<Message>)
    ensures |out| == 4 && out[2] == Raw(SetChunkSize(RTMP_OUTPUT_CHUNK_SIZE))
    ensures out[3].Command? && out[3].streamId == 0 && out[3].reply.ConnectResult?
    ensures out[3].reply.transaction == transaction && out[3].reply.encoding == encoding
  {
    [Raw(WindowAckSize(windowSize)),
     Raw(PeerBandwidth(peerBandwidth, RTMP_BANDWIDTH_LIMIT_DYNAMIC)),
     Raw(SetChunkSize(RTMP_OUTPUT_CHUNK_SIZE)),
     Command(RTMP_TYPE_INVOKE, 0,
             ConnectResult(transaction, RTMP_FMSVER, RTMP_CAPABILITIES, "NetConnection.Connect.Success",
                           RTMP_LEVEL_STATUS, "Connection Succeeded.", encoding))]
  }

  /** The Seek.Notify and Play.Start pair receiveAudio(true) and receiveVideo(true)
      answer with, on a given message stream. */
  function ResumeReplies(streamId: nat, transaction: real): (out: seq<Message>)
    ensures |out| == 2
    ensures forall m :: m in out ==>
      m.Command? && m.streamId == streamId && m.reply.OnStatus? && m.reply.level == RTMP_LEVEL_STATUS
    ensures out[0].reply.code == "NetStream.Seek.Notify" && out[1].reply.code == "NetStream.Play.Start"
  {
    [StatusMessage(streamId, transaction, 0, "NetStream.Seek.Notify", "NetStream.Seek.Failed", ""),
     StatusMessage(streamId, transaction, 0, "NetStream.Play.Start", "NetStream.Play.Failed", "")]
  }

  /** What a command callback leaves in the session's command fields: a failed parse
      changes nothing, and every command only ever appends to what has been sent. */
  function CommandEffect(f: CommandFields, windowSize: nat, peerBandwidth: nat, inv: Invocation)
    : (g: CommandFields)
    ensures inv.r != 0 ==> g == f
    ensures |f.outbox| <= |g.outbox| && g.outbox[..|f.outbox|] == f.outbox
    ensures !inv.OnConnect? ==> g.info == f.info && g.outChunkSize == f.outChunkSize
    ensures g.receiveAudio != f.receiveAudio ==> inv.OnReceiveAudio?
    ensures g.receiveVideo != f.receiveVideo ==> inv.OnReceiveVideo?
    ensures g.streamId != f.streamId ==> inv.OnCreateStream? || inv.OnDeleteStream?
    ensures g.streamName != f.streamName ==> inv.OnPlay? || inv.OnPublish?
  {
    if inv.r != 0 then f
    else match inv
      case OnConnect(_, t, connect) =>
        f.(info := connect, outChunkSize := RTMP_OUTPUT_CHUNK_SIZE,
           outbox := f.outbox + ConnectReplies(windowSize, peerBandwidth, t, connect.encoding))
      case OnCreateStream(_, t) =>
        f.(streamId := 1, outbox := f.outbox + [Command(RTMP_TYPE_INVOKE, 0, CreateStreamResult(t, 1))])
      case OnDeleteStream(_, t, _) =>
        f.(streamId := 0, outbox := f.outbox + [StatusMessage(0, t, 0, "NetStream.DeleteStream.Suceess",
                                                              "NetStream.DeleteStream.Failed", "")])
      case OnGetStreamLength(_, t, _) =>
        f.(outbox := f.outbox + [Command(RTMP_TYPE_INVOKE, f.streamId, StreamLengthResult(t, -1.0))])
      case OnPause(_, t, pause, _) =>
        f.(outbox := f.outbox + [StatusMessage(f.streamId, t, 0,
                                               if pause != 0 then "NetStream.Pause.Notify"
                                               else "NetStream.Unpause.Notify",
                                               "NetStream.Pause.Failed", "")])
      case OnSeek(_, t, _) =>
        f.(outbox := f.outbox + [StatusMessage(f.streamId, t, 0, "NetStream.Seek.Notify", "NetStream.Seek.Failed", "")])
      case OnReceiveAudio(_, t, audio) =>
        f.(receiveAudio := audio, outbox := f.outbox + (if audio != 0 then ResumeReplies(f.streamId, t) else []))
      case OnReceiveVideo(_, t, video) =>
        f.(receiveVideo := video, outbox := f.outbox + (if video != 0 then ResumeReplies(f.streamId, t) else []))
      case OnPlay(_, t, name, start, _, reset) =>
        f.(startPlay := 0, startReset := reset, startTransaction := t,
           streamName := Truncate(name, STREAM_NAME_SIZE),
           streamType := if start == -1.0 then RTMP_STREAM_LIVE else RTMP_STREAM_RECORD,
           outbox := f.outbox + StartReplies(RTMP_SERVER_ONPLAY, reset, t, f.streamId, 0, ""))
      case OnPublish(_, t, name, kind) =>
        f.(startPlay := 0, startTransaction := t, streamName := Truncate(name, STREAM_NAME_SIZE),
           streamType := Truncate(kind, STREAM_TYPE_SIZE),
           outbox := f.outbox + StartReplies(RTMP_SERVER_ONPUBLISH, f.startReset, t, f.streamId, 0, ""))
  }

  /** A successful play start: stream-begin, Play.Reset only when a reset was asked
      for, Play.Start at level "status", stream-is-recorded, then |RtmpSampleAccess. */
  lemma PlayStartSequence(reset: nat, transaction: real, streamId: nat)
    ensures var out := StartReplies(RTMP_SERVER_ONPLAY, reset, transaction, streamId, 0, "");
      |out| == (if reset != 0 then 5 else 4) &&
      out[0] == Raw(StreamBegin(streamId)) &&
      (reset != 0 ==> out[1].reply.code == "NetStream.Play.Reset") &&
      out[|out| - 3].reply.code == "NetStream.Play.Start" &&
      out[|out| - 3].reply.level == RTMP_LEVEL_STATUS &&
      out[|out| - 2] == Raw(StreamIsRecorded(streamId)) &&
      out[|out| - 1] == Command(RTMP_TYPE_DATA, streamId, SampleAccess)
  {
  }

  /** A failed play start sends no stream-begin, reports Play.Failed at level "error",
      and still sends stream-is-recorded and |RtmpSampleAccess. */
  lemma PlayStartFailure(reset: nat, transaction: real, streamId: nat, r: int)
    requires r != 0
    ensures var out := StartReplies(RTMP_SERVER_ONPLAY, reset, transaction, streamId, r, "");
      |out| == 3 && out[0].reply.level == RTMP_LEVEL_ERROR &&
      out[0].reply.code == "NetStream.Play.Failed" &&
      out[1] == Raw(StreamIsRecorded(streamId)) &&
      out[2] == Command(RTMP_TYPE_DATA, streamId, SampleAccess)
  {
  }

  /** The out_packets entry the constructor sets up for a named channel. */
  function ChannelPacket(c: Channel): (p: Packet)
    ensures p.header.cid == ChannelId(c) && p.payload == None
  {
    ZeroPacket().(header := ZeroPacket().header.(cid := ChannelId(c)))
  }

  /** The session fields the command callbacks read and write, with what has been sent. */
  datatype CommandFields = CommandFields(info: ConnectInfo, outChunkSize: nat, streamName: string,
                                         streamType: string, streamId: nat, receiveAudio: nat,
                                         receiveVideo: nat, startPlay: nat, startReset: nat,
                                         startTransaction: real, outbox: seq<Message>)

  class RtmpConn {
    var connHandle: nat
    var uuid: nat
    var connState: ConnState
    var sockHandle: int
    // handshake
    var handshakeState: HandshakeState
    var handshakeBytes: nat
    /** The 2048-byte scratch buffer; C1 and C2 are gathered at its start. */
    const payload: array<byte>
    /** Every byte the handshake has consumed so far (C0, C1, C2 in order). */
    ghost var handshakeInput: seq<byte>
    // rtmp_t
    var recvBytes: Counters
    var windowSize: nat
    var peerBandwidth: nat
    var bufferLengthMs: nat
    var inChunkSize: nat
    var outChunkSize: nat
    var parserState: ParserState
    const inPackets: array<Packet>
    const outPackets: array<Packet>
    // command state
    var info: ConnectInfo
    var streamName: string
    var streamType: string
    var streamId: nat
    var receiveAudio: nat
    var receiveVideo: nat
    var startPlay: nat
    var startReset: nat
    var startTransaction: real
    // output
    var transport: Transport
    var outbox: seq<Message>
    /** Bytes handed to the chunk reader after the handshake. */
    var chunkInput: seq<byte>
    // live relay
    var cache: Cache
    var sentAudio: bool
    var sentVideo: bool
    var sentScript: bool
    var source: LiveSource?
    var consumer: LiveConsumer?

    /** The handshake invariant: the position is a legal one, the ghost input holds
        exactly the consumed bytes, and the scratch buffer holds the part of the block
        (C1 or C2) gathered so far. */
    ghost predicate HandshakeValid()
      reads this, payload
    {
      payload.Length == PAYLOAD_SIZE &&
      Between(handshakeState, handshakeBytes) &&
      (handshakeState == HandshakeUninit || handshakeState == Handshake2 ==> handshakeBytes == 0) &&
      |handshakeInput| == Consumed(handshakeState, handshakeBytes) &&
      (handshakeState == Handshake0 ==>
         payload[..handshakeBytes] == handshakeInput[1..1 + handshakeBytes]) &&
      (handshakeState == Handshake1 ==>
         payload[..handshakeBytes] == handshakeInput[C1_END..C1_END + handshakeBytes])
    }

    ghost predicate Valid()
      reads this, payload
    {
      HandshakeValid() &&
      inPackets.Length == N_CHUNK_STREAM && outPackets.Length == N_CHUNK_STREAM &&
      Bounded(recvBytes, windowSize) &&
      Coherent(transport) &&
      IsStartPlay(startPlay) &&
      (consumer != null ==> source != null)
    }

    /** What the fan-out needs of this session as a player. */
    function Player(): (p: PlayerState)
      reads this
      ensures p.streamId == streamId
    {
      PlayerState(receiveAudio, receiveVideo, streamId, sentAudio, sentVideo, sentScript)
    }

    /** This session's command fields. */
    function Commands(): (f: CommandFields)
      reads this
      ensures f.outbox == outbox && f.streamId == streamId
    {
      CommandFields(info, outChunkSize, streamName, streamType, streamId, receiveAudio, receiveVideo,
                    startPlay, startReset, startTransaction, outbox)
    }

    constructor(connHandle: nat, uuid: nat)
      ensures Valid()
      ensures fresh(payload) && fresh(inPackets) && fresh(outPackets)
      ensures this.connHandle == connHandle && this.uuid == uuid
      ensures connState == ConnIdle && sockHandle == NETLIB_INVALID_HANDLE
      ensures handshakeState == HandshakeUninit && handshakeInput == []
      ensures recvBytes == Counters(0, 0)
      ensures windowSize == DEFAULT_WINDOW_SIZE && peerBandwidth == DEFAULT_PEER_BANDWIDTH
      ensures bufferLengthMs == DEFAULT_BUFFER_LENGTH_MS
      ensures inChunkSize == RTMP_CHUNK_SIZE && outChunkSize == RTMP_CHUNK_SIZE
      ensures parserState == ParseInit
      ensures forall i :: 0 <= i < inPackets.Length ==> inPackets[i] == ZeroPacket()
      ensures forall c :: outPackets[ChannelId(c)].header.cid == ChannelId(c)
      ensures Player() == FreshPlayer(0)
      ensures cache == Cache(None, None, None)
      ensures source == null && consumer == null
      ensures transport == InitialTransport() && outbox == [] && chunkInput == []
    {
      this.connHandle := connHandle;
      this.uuid := uuid;
      connState := ConnIdle;
      sockHandle := NETLIB_INVALID_HANDLE;
      handshakeState := HandshakeUninit;
      handshakeBytes := 0;
      payload := new byte[PAYLOAD_SIZE](_ => 0);
      handshakeInput := [];
      recvBytes := Counters(0, 0);
      windowSize := DEFAULT_WINDOW_SIZE;
      peerBandwidth := DEFAULT_PEER_BANDWIDTH;
      bufferLengthMs := DEFAULT_BUFFER_LENGTH_MS;
      inChunkSize := RTMP_CHUNK_SIZE;
      outChunkSize := RTMP_CHUNK_SIZE;
      parserState := ParseInit;
      info := EmptyConnectInfo();
      streamName := "";
      streamType := "";
      streamId := 0;
      receiveAudio := 1;
      receiveVideo := 1;
      startPlay := 0;
      startReset := 0;
      startTransaction := 0.0;
      transport := InitialTransport();
      outbox := [];
      chunkInput := [];
      cache := Cache(None, None, None);
      sentAudio := false;
      sentVideo := false;
      sentScript := false;
      source := null;
      consumer := null;
      inPackets := new Packet[N_CHUNK_STREAM](_ => ZeroPacket());
      var out := new Packet[N_CHUNK_STREAM](_ => ZeroPacket());
      out[ChannelId(ChannelProtocol)] := ChannelPacket(ChannelProtocol);
      out[ChannelId(ChannelInvoke)] := ChannelPacket(ChannelInvoke);
      out[ChannelId(ChannelAudio)] := ChannelPacket(ChannelAudio);
      out[ChannelId(ChannelVideo)] := ChannelPacket(ChannelVideo);
      out[ChannelId(ChannelData)] := ChannelPacket(ChannelData);
      outPackets := out;
      new;
      assert forall c :: outPackets[ChannelId(c)].header.cid == ChannelId(c) by {
        forall c ensures outPackets[ChannelId(c)].header.cid == ChannelId(c) {
          match c
          case ChannelProtocol =>
          case ChannelInvoke =>
          case ChannelAudio =>
          case ChannelVideo =>
          case ChannelData =>
        }
      }
    }

    /** Send: queue behind a pending write, or write and queue what the socket
        (returning `ret`) did not take. */
    method Send(data: seq<byte>, ret: int) returns (r: int)
      requires ret <= |data|
      modifies this`transport
      ensures transport == SendStep(old(transport), data, ret)
      ensures r == 0
    {
      if transport.busy {
        transport := transport.(outBuf := transport.outBuf + data);
        return 0;
      }
      var accepted := if ret < 0 then 0 else ret;
      if accepted < |data| {
        transport := Transport(true, transport.outBuf + data[accepted..], transport.wire + data[..accepted]);
      } else {
        transport := transport.(wire := transport.wire + data);
      }
      r := 0;
    }

    /** OnWrite: on a writable socket (returning `ret`), flush what is queued. */
    method OnWrite(ret: int)
      requires ret <= |transport.outBuf|
      modifies this`transport
      ensures transport == WriteStep(old(transport), ret)
    {
      if !transport.busy {
        return;
      }
      var accepted := if ret < 0 then 0 else ret;
      var size := |transport.outBuf|;
      var sent := transport.outBuf[..accepted];
      transport := Transport(accepted < size, transport.outBuf[accepted..], transport.wire + sent);
    }

    /** rtmp_server_send_handshake: S0 + S1 + S2, S2 echoing the C1 in the scratch
        buffer. */
    method SendHandshake() returns (r: int)
      requires payload.Length == PAYLOAD_SIZE
      modifies this`outbox
      ensures outbox == old(outbox) + [Raw(HandshakeReply(payload[..RTMP_HANDSHAKE_SIZE]))]
      ensures r == 0
    {
      outbox := outbox + [Raw(HandshakeReply(payload[..RTMP_HANDSHAKE_SIZE]))];
      r := 0;
    }

    /** rtmp_server_send_acknowledgement. */
    method SendAcknowledgement(size: nat) returns (r: int)
      modifies this`recvBytes, this`outbox
      ensures recvBytes == AckStep(old(recvBytes), windowSize, size)
      ensures outbox == old(outbox) +
        (if AckDue(old(recvBytes), windowSize, size) then [Raw(Acknowledgement(recvBytes.received))] else [])
      ensures r == 0
    {
      var due := windowSize != 0 && recvBytes.received + size - recvBytes.acked > windowSize;
      recvBytes := recvBytes.(received := recvBytes.received + size);
      if due {
        outbox := outbox + [Raw(Acknowledgement(recvBytes.received))];
        recvBytes := recvBytes.(acked := recvBytes.received);
      }
      r := 0;
    }

    /** rtmp_server_send_server_bandwidth (Window Acknowledgement Size). */
    method SendServerBandwidth() returns (r: int)
      modifies this`outbox
      ensures outbox == old(outbox) + [Raw(WindowAckSize(windowSize))] && r == 0
    {
      outbox := outbox + [Raw(WindowAckSize(windowSize))];
      r := 0;
    }

    /** rtmp_server_send_client_bandwidth (Set Peer Bandwidth, dynamic). */
    method SendClientBandwidth() returns (r: int)
      modifies this`outbox
      ensures outbox == old(outbox) + [Raw(PeerBandwidth(peerBandwidth, RTMP_BANDWIDTH_LIMIT_DYNAMIC))]
      ensures r == 0
    {
      outbox := outbox + [Raw(PeerBandwidth(peerBandwidth, RTMP_BANDWIDTH_LIMIT_DYNAMIC))];
      r := 0;
    }

    /** rtmp_server_send_set_chunk_size: announce and adopt 4096-byte output chunks. */
    method SendSetChunkSize() returns (r: int)
      modifies this`outbox, this`outChunkSize
      ensures outbox == old(outbox) + [Raw(SetChunkSize(RTMP_OUTPUT_CHUNK_SIZE))]
      ensures outChunkSize == RTMP_OUTPUT_CHUNK_SIZE && r == 0
    {
      outbox := outbox + [Raw(SetChunkSize(RTMP_OUTPUT_CHUNK_SIZE))];
      outChunkSize := RTMP_OUTPUT_CHUNK_SIZE;
      r := 0;
    }

    method SendStreamBegin() returns (r: int)
      modifies this`outbox
      ensures outbox == old(outbox) + [Raw(StreamBegin(streamId))] && r == 0
    {
      outbox := outbox + [Raw(StreamBegin(streamId))];
      r := 0;
    }

    method SendStreamIsRecord() returns (r: int)
      modifies this`outbox
      ensures outbox == old(outbox) + [Raw(StreamIsRecorded(streamId))] && r == 0
    {
      outbox := outbox + [Raw(StreamIsRecorded(streamId))];
      r := 0;
    }

    /** rtmp_server_rtmp_sample_access: a data message on the session's stream. */
    method SendSampleAccess() returns (r: int)
      modifies this`outbox
      ensures outbox == old(outbox) + [Command(RTMP_TYPE_DATA, streamId, SampleAccess)] && r == 0
    {
      outbox := outbox + [Command(RTMP_TYPE_DATA, streamId, SampleAccess)];
      r := 0;
    }

    /** rtmp_server_send_onstatus. */
    method SendOnStatus(transaction: real, r: int, success: string, fail: string, description: string)
      returns (res: int)
      modifies this`outbox
      ensures outbox == old(outbox) + [StatusMessage(streamId, transaction, r, success, fail, description)]
      ensures res == 0
    {
      outbox := outbox + [StatusMessage(streamId, transaction, r, success, fail, description)];
      res := 0;
    }

    /** rtmp_server_input: feed `data` to the handshake, and once it is complete count
        the rest for acknowledgements and hand it to the chunk reader, whose result is
        `chunkRet`. */
    method ServerInput(data: seq<byte>, chunkRet: int) returns (r: int)
      requires Valid()
      requires handshakeState == HandshakeUninit && |data| > 0 ==> data[0] <= RTMP_VERSION
      modifies this`handshakeState, this`handshakeBytes, this`handshakeInput, payload
      modifies this`recvBytes, this`outbox, this`chunkInput
      ensures Valid()
      ensures var c := old(Consumed(handshakeState, handshakeBytes));
        var take := Advance(c, |data|) - c;
        Consumed(handshakeState, handshakeBytes) == Advance(c, |data|) &&
        handshakeInput == old(handshakeInput) + data[..take] &&
        chunkInput == old(chunkInput) + data[take..] &&
        recvBytes == (if take < |data| then AckStep(old(recvBytes), windowSize, |data| - take)
                      else old(recvBytes)) &&
        outbox == old(outbox)
                  + (if RepliesOn(c, |data|) == 1 then [Raw(HandshakeReply(handshakeInput[1..C1_END]))] else [])
                  + (if take < |data| && AckDue(old(recvBytes), windowSize, |data| - take)
                     then [Raw(Acknowledgement(old(recvBytes).received + (|data| - take)))] else []) &&
        r == (if take < |data| then chunkRet else 0)
    {
      ghost var c := Consumed(handshakeState, handshakeBytes);
      var p := RunHandshake(data);
      if p < |data| {
        r := SendAcknowledgementAndForward(data, p, chunkRet);
        assert RepliesOn(c, |data|) == 1 <==> c < C1_END <= c + p;
      } else {
        assert data[..p] == data && data[p..] == [];
        r := 0;
      }
    }

    /** The handshake part of rtmp_server_input's loop: it runs until the input is used
        up or the handshake completes, and returns the offset it stopped at. */
    method RunHandshake(data: seq<byte>) returns (p: nat)
      requires HandshakeValid()
      modifies this`handshakeState, this`handshakeBytes, this`handshakeInput, payload, this`outbox
      ensures HandshakeValid()
      ensures var c := old(Consumed(handshakeState, handshakeBytes));
        p == Advance(c, |data|) - c &&
        Consumed(handshakeState, handshakeBytes) == c + p &&
        handshakeInput == old(handshakeInput) + data[..p] &&
        outbox == old(outbox) + (if RepliesOn(c, |data|) == 1 then
                                   [Raw(HandshakeReply(handshakeInput[1..C1_END]))] else [])
    {
      ghost var c := Consumed(handshakeState, handshakeBytes);
      p := 0;
      while p < |data| && handshakeState != Handshake2
        invariant 0 <= p <= |data| && c + p <= HANDSHAKE_TOTAL
        invariant HandshakeValid()
        invariant Consumed(handshakeState, handshakeBytes) == c + p
        invariant handshakeInput == old(handshakeInput) + data[..p]
        invariant outbox == old(outbox) + (if c < C1_END <= c + p then
                                             [Raw(HandshakeReply(handshakeInput[1..C1_END]))] else [])
        decreases |data| - p
      {
        ghost var input0 := handshakeInput;
        var q := HandshakeStep(data, p);
        assert data[..q] == data[..p] + data[p..q];
        assert |input0| >= C1_END ==> handshakeInput[1..C1_END] == input0[1..C1_END];
        p := q;
      }
    }

    /** The rest of rtmp_server_input once the handshake is done: count the bytes for
        acknowledgements and hand them to the chunk reader, whose result is `chunkRet`. */
    method SendAcknowledgementAndForward(data: seq<byte>, p: nat, chunkRet: int) returns (r: int)
      requires p <= |data|
      modifies this`recvBytes, this`outbox, this`chunkInput
      ensures recvBytes == AckStep(old(recvBytes), windowSize, |data| - p)
      ensures outbox == old(outbox) +
        (if AckDue(old(recvBytes), windowSize, |data| - p)
         then [Raw(Acknowledgement(old(recvBytes).received + (|data| - p)))] else [])
      ensures chunkInput == old(chunkInput) + data[p..]
      ensures r == chunkRet
    {
      var _ := SendAcknowledgement(|data| - p);
      chunkInput := chunkInput + data[p..];
      r := chunkRet;
    }

    /** One pass of rtmp_server_input's loop before the handshake completes: take C0,
        or the missing part of C1 (answering with S0+S1+S2 once it is whole), or of C2. */
    method HandshakeStep(data: seq<byte>, p: nat) returns (q: nat)
      requires HandshakeValid() && p < |data| && handshakeState != Handshake2
      modifies this`handshakeState, this`handshakeBytes, this`handshakeInput, payload, this`outbox
      ensures HandshakeValid()
      ensures p < q <= |data|
      ensures Consumed(handshakeState, handshakeBytes) == old(Consumed(handshakeState, handshakeBytes)) + (q - p)
      ensures handshakeInput == old(handshakeInput) + data[p..q]
      ensures outbox == old(outbox) +
        (if old(Consumed(handshakeState, handshakeBytes)) < C1_END <= Consumed(handshakeState, handshakeBytes)
         then [Raw(HandshakeReply(handshakeInput[1..C1_END]))] else [])
    {
      match handshakeState
      case HandshakeUninit =>
        handshakeState := Handshake0;
        handshakeBytes := 0;
        handshakeInput := handshakeInput + [data[p]];
        q := p + 1;
      case Handshake0 =>
        q := TakeC1(data, p);
      case Handshake1 =>
        q := TakeC2(data, p);
    }

    /** Gather (part of) C1; once it is whole, reply with S0+S1+S2. */
    method TakeC1(data: seq<byte>, p: nat) returns (q: nat)
      requires HandshakeValid() && p < |data| && handshakeState == Handshake0
      modifies this`handshakeState, this`handshakeBytes, this`handshakeInput, payload, this`outbox
      ensures HandshakeValid()
      ensures q == p + Min(RTMP_HANDSHAKE_SIZE - old(handshakeBytes), |data| - p)
      ensures handshakeInput == old(handshakeInput) + data[p..q]
      ensures old(handshakeBytes) + (q - p) < RTMP_HANDSHAKE_SIZE ==>
        handshakeState == Handshake0 && handshakeBytes == old(handshakeBytes) + (q - p) &&
        outbox == old(outbox)
      ensures old(handshakeBytes) + (q - p) == RTMP_HANDSHAKE_SIZE ==>
        handshakeState == Handshake1 && handshakeBytes == 0 &&
        outbox == old(outbox) + [Raw(HandshakeReply(handshakeInput[1..C1_END]))]
    {
      ghost var before := handshakeInput;
      var n := Min(RTMP_HANDSHAKE_SIZE - handshakeBytes, |data| - p);
      CopyBlock(data, p, n);
      handshakeInput := handshakeInput + data[p..p + n];
      assert handshakeInput[1..1 + handshakeBytes + n]
          == before[1..1 + handshakeBytes] + data[p..p + n];
      handshakeBytes := handshakeBytes + n;
      q := p + n;
      assert payload[..handshakeBytes] == handshakeInput[1..1 + handshakeBytes];
      if handshakeBytes == RTMP_HANDSHAKE_SIZE {
        assert |handshakeInput| == C1_END;
        handshakeState := Handshake1;
        handshakeBytes := 0;
        var _ := SendHandshake();
      }
    }

    /** Gather (part of) C2; once it is whole the handshake is done. */
    method TakeC2(data: seq<byte>, p: nat) returns (q: nat)
      requires HandshakeValid() && p < |data| && handshakeState == Handshake1
      modifies this`handshakeState, this`handshakeBytes, this`handshakeInput, payload
      ensures HandshakeValid()
      ensures q == p + Min(RTMP_HANDSHAKE_SIZE - old(handshakeBytes), |data| - p)
      ensures handshakeInput == old(handshakeInput) + data[p..q]
      ensures old(handshakeBytes) + (q - p) < RTMP_HANDSHAKE_SIZE ==>
        handshakeState == Handshake1 && handshakeBytes == old(handshakeBytes) + (q - p)
      ensures old(handshakeBytes) + (q - p) == RTMP_HANDSHAKE_SIZE ==>
        handshakeState == Handshake2 && handshakeBytes == 0
    {
      ghost var before := handshakeInput;
      var n := Min(RTMP_HANDSHAKE_SIZE - handshakeBytes, |data| - p);
      CopyBlock(data, p, n);
      handshakeInput := handshakeInput + data[p..p + n];
      assert handshakeInput[C1_END..C1_END + handshakeBytes + n]
          == before[C1_END..C1_END + handshakeBytes] + data[p..p + n];
      handshakeBytes := handshakeBytes + n;
      q := p + n;
      if handshakeBytes == RTMP_HANDSHAKE_SIZE {
        handshakeState := Handshake2;
        handshakeBytes := 0;
      }
    }

    /** rtmp_server_start: the replies for the play or publish recorded in `start`,
        after which nothing is pending. */
    method Start(r: int, msg: string) returns (res: int)
      modifies this`outbox, this`startPlay
      ensures startPlay == 0
      ensures outbox == old(outbox) + StartReplies(old(startPlay), startReset, startTransaction, streamId, r, msg)
      ensures res == (if old(startPlay) == RTMP_SERVER_ONPLAY || old(startPlay) == RTMP_SERVER_ONPUBLISH
                      then 0 else r)
    {
      res := r;
      if startPlay == RTMP_SERVER_ONPLAY {
        if res == 0 {
          res := SendStreamBegin();
          if startReset != 0 {
            res := SendOnStatus(startTransaction, 0, "NetStream.Play.Reset", "NetStream.Play.Failed", "");
          }
        }
        res := SendOnStatus(startTransaction, res, "NetStream.Play.Start",
                            if msg != "" then msg else "NetStream.Play.Failed", "Start video on demand");
        res := SendStreamIsRecord();
        res := SendSampleAccess();
      } else if startPlay == RTMP_SERVER_ONPUBLISH {
        if res == 0 {
          res := SendStreamBegin();
        }
        res := SendOnStatus(startTransaction, res, "NetStream.Publish.Start",
                            if msg != "" then msg else "NetStream.Publish.BadName", "");
      }
      startPlay := 0;
    }

    /** The session part of rtmp_server_onplay: on success record the play (stream name,
        "live" for start -1 and "record" otherwise, reset, transaction) and answer it. */
    method BeginPlay(r: int, transaction: real, name: string, start: real, duration: real, reset: nat)
      returns (res: int)
      modifies this`startPlay, this`startReset, this`startTransaction, this`streamName
      modifies this`streamType, this`outbox
      ensures Commands() == CommandEffect(old(Commands()), windowSize, peerBandwidth,
                                          Invocation.OnPlay(r, transaction, name, start, duration, reset))
      ensures r == 0 ==> (
        startPlay == 0 && startReset == reset && startTransaction == transaction &&
        streamName == Truncate(name, STREAM_NAME_SIZE) &&
        streamType == (if start == -1.0 then RTMP_STREAM_LIVE else RTMP_STREAM_RECORD) &&
        outbox == old(outbox) + StartReplies(RTMP_SERVER_ONPLAY, reset, transaction, streamId, 0, ""))
      ensures r != 0 ==> (
        startPlay == old(startPlay) && startReset == old(startReset) &&
        startTransaction == old(startTransaction) &&
        streamName == old(streamName) && streamType == old(streamType) && outbox == old(outbox))
      ensures res == r
    {
      res := r;
      if r == 0 {
        startPlay := RTMP_SERVER_ONPLAY;
        startReset := reset;
        startTransaction := transaction;
        streamName := Truncate(name, STREAM_NAME_SIZE);
        streamType := Truncate(if start == -1.0 then RTMP_STREAM_LIVE else RTMP_STREAM_RECORD,
                               STREAM_TYPE_SIZE);
        res := Start(0, "");
      }
    }

    /** The session part of rtmp_server_onpublish: on success record the publish
        (stream name and type, cut to their buffers, and transaction) and answer it. */
    method BeginPublish(r: int, transaction: real, name: string, kind: string) returns (res: int)
      modifies this`startPlay, this`startTransaction, this`streamName, this`streamType, this`outbox
      ensures Commands() == CommandEffect(old(Commands()), windowSize, peerBandwidth,
                                          Invocation.OnPublish(r, transaction, name, kind))
      ensures r == 0 ==> (
        startPlay == 0 && startTransaction == transaction &&
        streamName == Truncate(name, STREAM_NAME_SIZE) && streamType == Truncate(kind, STREAM_TYPE_SIZE) &&
        outbox == old(outbox) + StartReplies(RTMP_SERVER_ONPUBLISH, startReset, transaction, streamId, 0, ""))
      ensures r != 0 ==> (
        startPlay == old(startPlay) && startTransaction == old(startTransaction) &&
        streamName == old(streamName) && streamType == old(streamType) && outbox == old(outbox))
      ensures res == r
    {
      res := r;
      if r == 0 {
        startPlay := RTMP_SERVER_ONPUBLISH;
        startTransaction := transaction;
        streamName := Truncate(name, STREAM_NAME_SIZE);
        streamType := Truncate(kind, STREAM_TYPE_SIZE);
        res := Start(0, "");
      }
    }

    /** rtmp_server_onconnect: on success record the connect parameters, send Window
        Acknowledgement Size, Set Peer Bandwidth and Set Chunk Size, then the _result. */
    method OnConnectCmd(r: int, transaction: real, connect: ConnectInfo) returns (res: int)
      requires connect.encoding == RTMP_ENCODING_AMF_0 || connect.encoding == RTMP_ENCODING_AMF_3
      requires r == 0 ==> 1.0 <= transaction < 2.0
      modifies this`info, this`outbox, this`outChunkSize
      ensures r == 0 ==>
        info == connect && outChunkSize == RTMP_OUTPUT_CHUNK_SIZE &&
        outbox == old(outbox) + ConnectReplies(windowSize, peerBandwidth, transaction, connect.encoding)
      ensures r != 0 ==> info == old(info) && outChunkSize == old(outChunkSize) && outbox == old(outbox)
      ensures res == r
    {
      res := r;
      if res == 0 {
        info := connect;
        res := SendServerBandwidth();
        if res == 0 { res := SendClientBandwidth(); }
        if res == 0 { res := SendSetChunkSize(); }
      }
      if res == 0 {
        outbox := outbox + [Command(RTMP_TYPE_INVOKE, 0,
                                    ConnectResult(transaction, RTMP_FMSVER, RTMP_CAPABILITIES,
                                                  "NetConnection.Connect.Success", RTMP_LEVEL_STATUS,
                                                  "Connection Succeeded.", connect.encoding))];
      }
    }

    /** rtmp_server_oncreate_stream: the session's message stream becomes 1, and the
        _result announcing it goes out on stream 0. */
    method OnCreateStream(r: int, transaction: real) returns (res: int)
      modifies this`streamId, this`outbox
      ensures r == 0 ==> (streamId == 1 &&
        outbox == old(outbox) + [Command(RTMP_TYPE_INVOKE, 0, CreateStreamResult(transaction, 1))])
      ensures r != 0 ==> streamId == old(streamId) && outbox == old(outbox)
      ensures res == r
    {
      res := r;
      if r == 0 {
        streamId := 1;
        outbox := outbox + [Command(RTMP_TYPE_INVOKE, 0, CreateStreamResult(transaction, streamId))];
      }
    }

    /** rtmp_server_ondelete_stream: back to stream 0, then an onStatus on it (whatever
        stream the client named). */
    method OnDeleteStream(r: int, transaction: real, deletedStream: real) returns (res: int)
      modifies this`streamId, this`outbox
      ensures r == 0 ==> (streamId == 0 &&
        outbox == old(outbox) + [StatusMessage(0, transaction, 0, "NetStream.DeleteStream.Suceess",
                                               "NetStream.DeleteStream.Failed", "")])
      ensures r != 0 ==> streamId == old(streamId) && outbox == old(outbox)
      ensures res == r
    {
      res := r;
      if r == 0 {
        streamId := 0;
        res := SendOnStatus(transaction, r, "NetStream.DeleteStream.Suceess", "NetStream.DeleteStream.Failed", "");
      }
    }

    /** rtmp_server_onget_stream_length: a live stream has no length; the reply carries
        a duration of -1. */
    method OnGetStreamLength(r: int, transaction: real, name: string) returns (res: int)
      modifies this`outbox
      ensures r == 0 ==>
        outbox == old(outbox) + [Command(RTMP_TYPE_INVOKE, streamId, StreamLengthResult(transaction, -1.0))]
      ensures r != 0 ==> outbox == old(outbox)
      ensures res == r
    {
      res := r;
      if r == 0 {
        outbox := outbox + [Command(RTMP_TYPE_INVOKE, streamId, StreamLengthResult(transaction, -1.0))];
      }
    }

    /** rtmp_server_onpause. */
    method OnPause(r: int, transaction: real, pause: nat, milliSeconds: real) returns (res: int)
      modifies this`outbox
      ensures r == 0 ==> (outbox == old(outbox) +
        [StatusMessage(streamId, transaction, 0,
                       if pause != 0 then "NetStream.Pause.Notify" else "NetStream.Unpause.Notify",
                       "NetStream.Pause.Failed", "")])
      ensures r != 0 ==> outbox == old(outbox)
      ensures res == r
    {
      res := r;
      if r == 0 {
        res := SendOnStatus(transaction, r,
                            if pause != 0 then "NetStream.Pause.Notify" else "NetStream.Unpause.Notify",
                            "NetStream.Pause.Failed", "");
      }
    }

    /** rtmp_server_onseek. */
    method OnSeek(r: int, transaction: real, milliSeconds: real) returns (res: int)
      modifies this`outbox
      ensures r == 0 ==> (outbox == old(outbox) +
        [StatusMessage(streamId, transaction, 0, "NetStream.Seek.Notify", "NetStream.Seek.Failed", "")])
      ensures r != 0 ==> outbox == old(outbox)
      ensures res == r
    {
      res := r;
      if r == 0 {
        res := SendOnStatus(transaction, r, "NetStream.Seek.Notify", "NetStream.Seek.Failed", "");
      }
    }

    /** rtmp_server_onreceive_audio: record whether the client takes audio; turning it
        on is answered with Seek.Notify and Play.Start. */
    method OnReceiveAudio(r: int, transaction: real, audio: nat) returns (res: int)
      modifies this`receiveAudio, this`outbox
      ensures r == 0 ==> (receiveAudio == audio &&
        outbox == old(outbox) + (if audio != 0 then ResumeReplies(streamId, transaction) else []))
      ensures r != 0 ==> receiveAudio == old(receiveAudio) && outbox == old(outbox)
      ensures res == r
    {
      res := r;
      if r == 0 {
        receiveAudio := audio;
        if audio != 0 {
          res := SendOnStatus(transaction, res, "NetStream.Seek.Notify", "NetStream.Seek.Failed", "");
          res := SendOnStatus(transaction, res, "NetStream.Play.Start", "NetStream.Play.Failed", "");
        }
      }
    }

    /** rtmp_server_onreceive_video, the same for video. */
    method OnReceiveVideo(r: int, transaction: real, video: nat) returns (res: int)
      modifies this`receiveVideo, this`outbox
      ensures r == 0 ==> (receiveVideo == video &&
        outbox == old(outbox) + (if video != 0 then ResumeReplies(streamId, transaction) else []))
      ensures r != 0 ==> receiveVideo == old(receiveVideo) && outbox == old(outbox)
      ensures res == r
    {
      res := r;
      if r == 0 {
        receiveVideo := video;
        if video != 0 {
          res := SendOnStatus(transaction, res, "NetStream.Seek.Notify", "NetStream.Seek.Failed", "");
          res := SendOnStatus(transaction, res, "NetStream.Play.Start", "NetStream.Play.Failed", "");
        }
      }
    }

    /** The callback a parsed session command names, other than play and publish. */
    method RunCommand(inv: Invocation) returns (res: int)
      requires !inv.OnPlay? && !inv.OnPublish? && CallbackPreconditions(Call(inv))
      modifies this`info, this`outbox, this`outChunkSize, this`streamId, this`receiveAudio, this`receiveVideo
      ensures Commands() == CommandEffect(old(Commands()), windowSize, peerBandwidth, inv)
      ensures res == inv.r
    {
      match inv
      case OnConnect(r, t, connect) => res := OnConnectCmd(r, t, connect);
      case OnCreateStream(r, t) => res := OnCreateStream(r, t);
      case OnDeleteStream(r, t, sid) => res := OnDeleteStream(r, t, sid);
      case OnReceiveAudio(r, t, audio) => res := OnReceiveAudio(r, t, audio);
      case OnReceiveVideo(r, t, video) => res := OnReceiveVideo(r, t, video);
      case OnSeek(r, t, ms) => res := OnSeek(r, t, ms);
      case OnPause(r, t, pause, ms) => res := OnPause(r, t, pause, ms);
      case OnGetStreamLength(r, t, name) => res := OnGetStreamLength(r, t, name);
    }

    /** rtmp_server_send_audio / _video / _script: one tag on the kind's channel, unless
        the client turned that kind off. */
    method SendMedia(kind: TagKind, tag: TagBuffer) returns (r: int)
      modifies this`outbox
      ensures outbox == old(outbox) + SendTag(Player(), kind, tag)
      ensures r == 0
    {
      if Wants(Player(), kind) {
        outbox := outbox + [TagMessage(kind, tag, streamId)];
      }
      r := 0;
    }

    /** rtmp_server_check_send_audio_config / _video_config / _script_metadata: the
        publisher's cached tag of the kind goes to this player once. */
    method CheckSendConfig(kind: TagKind) returns (r: int)
      requires source != null && source.conn != null
      modifies this`outbox, this`sentAudio, this`sentVideo, this`sentScript
      ensures var cached := Cached(source.conn.cache, kind);
        if cached.Some? && !SentConfig(old(Player()), kind) then
          Player() == MarkSent(old(Player()), kind) &&
          outbox == old(outbox) + SendTag(old(Player()), kind, cached.value)
        else
          Player() == old(Player()) && outbox == old(outbox)
      ensures r == 0
    {
      var cached := Cached(source.conn.cache, kind);
      if cached.Some? && !SentConfig(Player(), kind) {
        var _ := SendMedia(kind, cached.value);
        match kind
        case Audio => sentAudio := true;
        case Video => sentVideo := true;
        case Script => sentScript := true;
      }
      r := 0;
    }

    /** rtmp_server_destroy: the input payloads are released; output packets never own
        one. Returns the chunk streams whose payload was released. */
    method Destroy() returns (freed: seq<nat>)
      requires inPackets.Length == outPackets.Length
      requires forall i :: 0 <= i < outPackets.Length ==> outPackets[i].payload == None
      ensures forall c :: c in freed <==> 0 <= c < inPackets.Length && inPackets[c].payload.Some?
      ensures forall i, j :: 0 <= i < j < |freed| ==> freed[i] < freed[j]
    {
      freed := [];
      var i := 0;
      while i < inPackets.Length
        invariant 0 <= i <= inPackets.Length
        invariant forall c :: c in freed <==> 0 <= c < i && inPackets[c].payload.Some?
        invariant forall k, j :: 0 <= k < j < |freed| ==> freed[k] < freed[j]
        invariant forall k :: 0 <= k < |freed| ==> freed[k] < i
      {
        if inPackets[i].payload.Some? {
          freed := freed + [i];
        }
        i := i + 1;
      }
    }

    /** The memcpy of a C1 or C2 fragment into the scratch buffer at the block offset. */
    method CopyBlock(data: seq<byte>, p: nat, n: nat)
      requires payload.Length == PAYLOAD_SIZE
      requires handshakeBytes < RTMP_HANDSHAKE_SIZE && n <= RTMP_HANDSHAKE_SIZE - handshakeBytes
      requires p + n <= |data|
      modifies payload
      ensures payload[..handshakeBytes] == old(payload[..handshakeBytes])
      ensures payload[handshakeBytes..handshakeBytes + n] == data[p..p + n]
      ensures payload[..handshakeBytes + n] == old(payload[..handshakeBytes]) + data[p..p + n]
    {
      ScratchCopyInBounds(handshakeBytes, n);
      forall k | 0 <= k < n {
        payload[handshakeBytes + k] := data[p + k];
      }
      assert payload[..handshakeBytes + n] == payload[..handshakeBytes] + payload[handshakeBytes..handshakeBytes + n];
    }
  }

  class LiveConsumer {
    const rtmp: RtmpConn

    constructor(rtmp: RtmpConn)
      ensures this.rtmp == rtmp
    {
      this.rtmp := rtmp;
    }

    /** LiveConsumer::handler: the publisher's cached tag of the kind (once), then the
        tag, to this player's session. */
    method Handler(kind: TagKind, tag: TagBuffer) returns (r: int)
      requires rtmp.source != null && rtmp.source.conn != null
      modifies rtmp`outbox, rtmp`sentAudio, rtmp`sentVideo, rtmp`sentScript
      ensures var d := Deliver(old(rtmp.Player()), Cached(rtmp.source.conn.cache, kind), kind, tag);
        rtmp.Player() == d.0 && rtmp.outbox == old(rtmp.outbox) + d.1
      ensures r == 0
    {
      var _ := rtmp.CheckSendConfig(kind);
      r := rtmp.SendMedia(kind, tag);
    }
  }

  class LiveSource {
    var players: seq<LiveConsumer>
    var conn: RtmpConn?
    const appStream: string

    constructor(conn: RtmpConn, appStream: string)
      ensures players == [] && this.conn == conn && this.appStream == appStream
    {
      players := [];
      this.conn := conn;
      this.appStream := appStream;
    }

    /** The player sessions of this stream. */
    function Sessions(): (ss: set<RtmpConn>)
      reads this
      ensures forall i :: 0 <= i < |players| ==> players[i].rtmp in ss
    {
      set i | 0 <= i < |players| :: players[i].rtmp
    }

    /** Each session plays this stream at most once, and knows that it plays it. */
    ghost predicate Valid()
      reads this, Sessions()
    {
      (forall i, j :: 0 <= i < j < |players| ==> players[i].rtmp != players[j].rtmp) &&
      (forall i :: 0 <= i < |players| ==> players[i].rtmp.source == this)
    }

    /** LiveSource::handler: while the stream has a publisher, every player gets the
        tag (preceded once by the publisher's cached tag of its kind). */
    method Handler(kind: TagKind, tag: TagBuffer) returns (r: int)
      requires Valid()
      modifies Sessions()`outbox, Sessions()`sentAudio, Sessions()`sentVideo, Sessions()`sentScript
      ensures conn == null ==> forall i :: 0 <= i < |players| ==>
        players[i].rtmp.Player() == old(players[i].rtmp.Player()) &&
        players[i].rtmp.outbox == old(players[i].rtmp.outbox)
      ensures conn != null ==> forall i :: 0 <= i < |players| ==>
        var d := Deliver(old(players[i].rtmp.Player()), Cached(conn.cache, kind), kind, tag);
        players[i].rtmp.Player() == d.0 && players[i].rtmp.outbox == old(players[i].rtmp.outbox) + d.1
      ensures r == 0
    {
      if conn != null {
        var i := 0;
        while i < |players|
          invariant 0 <= i <= |players|
          invariant forall j :: 0 <= j < i ==>
            var d := Deliver(old(players[j].rtmp.Player()), Cached(conn.cache, kind), kind, tag);
            players[j].rtmp.Player() == d.0 && players[j].rtmp.outbox == old(players[j].rtmp.outbox) + d.1
          invariant forall j :: i <= j < |players| ==>
            players[j].rtmp.Player() == old(players[j].rtmp.Player()) &&
            players[j].rtmp.outbox == old(players[j].rtmp.outbox)
        {
          var _ := players[i].Handler(kind, tag);
          i := i + 1;
        }
      }
      r := 0;
    }

    /** The repeat-join check of rtmp_server_onplay. */
    method HasPlayer(ctx: RtmpConn) returns (found: bool)
      ensures found <==> exists i :: 0 <= i < |players| && players[i].rtmp == ctx
    {
      var i := 0;
      while i < |players|
        invariant 0 <= i <= |players|
        invariant forall j :: 0 <= j < i ==> players[j].rtmp != ctx
      {
        if players[i].rtmp == ctx {
          return true;
        }
        i := i + 1;
      }
      return false;
    }

    /** The player part of rtmp_server_onclose: the first entry of the consumer goes. */
    method RemovePlayer(c: LiveConsumer?)
      modifies this`players
      ensures players == RemoveFirst(old(players), c)
    {
      var i := 0;
      while i < |players|
        invariant 0 <= i <= |players|
        invariant c !in players[..i]
      {
        if players[i] == c {
          RemoveFirstAt(players, i, c);
          players := players[..i] + players[i + 1..];
          return;
        }
        assert players[..i + 1] == players[..i] + [players[i]];
        i := i + 1;
      }
      assert players[..i] == players;
      RemoveFirstAbsent(players, c);
    }
  }

  /** The list without the first entry equal to c. */
  function RemoveFirst<T(==)>(xs: seq<T>, c: T): (ys: seq<T>)
    ensures c in xs ==> |ys| == |xs| - 1
    ensures c !in xs ==> |ys| == |xs|
    decreases |xs|
  {
    if xs == [] then []
    else if xs[0] == c then xs[1..]
    else [xs[0]] + RemoveFirst(xs[1..], c)
  }

  /** Removing the first c takes out exactly one c and keeps the rest in order. */
  lemma {:induction false} RemoveFirstAt<T>(xs: seq<T>, i: nat, c: T)
    requires i < |xs| && xs[i] == c && c !in xs[..i]
    ensures RemoveFirst(xs, c) == xs[..i] + xs[i + 1..]
    decreases i
  {
    if i > 0 {
      assert xs[1..][..i - 1] == xs[1..i];
      assert c !in xs[1..][..i - 1];
      RemoveFirstAt(xs[1..], i - 1, c);
      assert xs[..i] == [xs[0]] + xs[1..][..i - 1];
      assert xs[i + 1..] == xs[1..][i..];
    }
  }

  lemma {:induction false} RemoveFirstAbsent<T>(xs: seq<T>, c: T)
    requires c !in xs
    ensures RemoveFirst(xs, c) == xs
    decreases |xs|
  {
    if xs != [] {
      RemoveFirstAbsent(xs[1..], c);
    }
  }

  /** After the consumer leaves, the other players remain, each as often and in the
      same order as before. */
  lemma {:induction false} RemoveFirstKeepsOthers<T>(xs: seq<T>, c: T)
    requires c in xs
    ensures multiset(RemoveFirst(xs, c)) == multiset(xs) - multiset{c}
    decreases |xs|
  {
    assert xs == [xs[0]] + xs[1..];
    if xs[0] != c {
      RemoveFirstKeepsOthers(xs[1..], c);
    }
  }

  /** s_lives after the erase loop of rtmp_server_onclose: every key of the stream goes. */
  function Unregister(lives: map<string, LiveSource>, s: LiveSource): (m: map<string, LiveSource>)
    ensures forall k :: k in m <==> k in lives && lives[k] != s
    ensures forall k :: k in m ==> m[k] == lives[k]
  {
    map k | k in lives && lives[k] != s :: lives[k]
  }

  /** A queued response: the uuid of the session it goes to and its bytes. */
  datatype ResponsePdu = ResponsePdu(uuid: nat, data: seq<byte>)

  /** The Send calls SendResponseDataList makes on session c, in order, when the socket
      answers the i-th send with rets[i]; responses to vanished sessions are dropped. */
  function SendsTo(c: RtmpConn, pdus: seq<ResponsePdu>, rets: seq<int>, conns: map<nat, RtmpConn>)
    : (ops: seq<Op>)
    requires |rets| == |pdus|
    requires forall i :: 0 <= i < |pdus| ==> rets[i] <= |pdus[i].data|
    ensures PlausibleSends(ops) && |ops| <= |pdus|
    decreases |pdus|
  {
    if pdus == [] then []
    else
      var n := |pdus| - 1;
      SendsTo(c, pdus[..n], rets[..n], conns)
      + (if pdus[n].uuid in conns && conns[pdus[n].uuid] == c then [SendOp(pdus[n].data, rets[n])] else [])
  }

  /** The bytes queued for session c, in queue order. */
  function QueuedFor(c: RtmpConn, pdus: seq<ResponsePdu>, conns: map<nat, RtmpConn>): seq<byte>
    decreases |pdus|
  {
    if pdus == [] then []
    else
      var n := |pdus| - 1;
      QueuedFor(c, pdus[..n], conns)
      + (if pdus[n].uuid in conns && conns[pdus[n].uuid] == c then pdus[n].data else [])
  }

  lemma {:induction false} SendsToCarriesQueued(c: RtmpConn, pdus: seq<ResponsePdu>, rets: seq<int>,
                                                conns: map<nat, RtmpConn>)
    requires |rets| == |pdus|
    requires forall i :: 0 <= i < |pdus| ==> rets[i] <= |pdus[i].data|
    ensures SendData(SendsTo(c, pdus, rets, conns)) == QueuedFor(c, pdus, conns)
    decreases |pdus|
  {
    if pdus != [] {
      var n := |pdus| - 1;
      var prefix := SendsTo(c, pdus[..n], rets[..n], conns);
      SendsToCarriesQueued(c, pdus[..n], rets[..n], conns);
      if pdus[n].uuid in conns && conns[pdus[n].uuid] == c {
        assert SendsTo(c, pdus, rets, conns) == prefix + [SendOp(pdus[n].data, rets[n])];
        SendDataSnoc(prefix, pdus[n].data, rets[n]);
      } else {
        assert SendsTo(c, pdus, rets, conns) == prefix + [];
        assert prefix + [] == prefix;
      }
    }
  }

  /** Draining the queue loses, duplicates and reorders nothing: a session's socket view
      followed by its out buffer grows by exactly the responses queued for it, in queue
      order, whatever the socket accepts each time. */
  lemma DrainDeliversInOrder(c: RtmpConn, t: Transport, pdus: seq<ResponsePdu>, rets: seq<int>,
                             conns: map<nat, RtmpConn>)
    requires Coherent(t) && |rets| == |pdus|
    requires forall i :: 0 <= i < |pdus| ==> rets[i] <= |pdus[i].data|
    ensures var t' := Replay(t, SendsTo(c, pdus, rets, conns));
      t'.wire + t'.outBuf == t.wire + t.outBuf + QueuedFor(c, pdus, conns) && Coherent(t')
  {
    var ops := SendsTo(c, pdus, rets, conns);
    ReplayKeepsOrder(t, ops);
    SentOfSends(t, ops);
    SendsToCarriesQueued(c, pdus, rets, conns);
  }

  /** One more queued response changes only the transport of the session it is for,
      by one SendStep. */
  lemma DrainStep(c: RtmpConn, t: Transport, pdus: seq<ResponsePdu>, rets: seq<int>,
                  conns: map<nat, RtmpConn>, i: nat)
    requires |rets| == |pdus| && i < |pdus|
    requires forall j :: 0 <= j < |pdus| ==> rets[j] <= |pdus[j].data|
    ensures var before := Replay(t, SendsTo(c, pdus[..i], rets[..i], conns));
      Replay(t, SendsTo(c, pdus[..i + 1], rets[..i + 1], conns)) ==
        if pdus[i].uuid in conns && conns[pdus[i].uuid] == c then SendStep(before, pdus[i].data, rets[i])
        else before
  {
    assert pdus[..i + 1][..i] == pdus[..i] && rets[..i + 1][..i] == rets[..i];
    var prefix := SendsTo(c, pdus[..i], rets[..i], conns);
    if pdus[i].uuid in conns && conns[pdus[i].uuid] == c {
      assert SendsTo(c, pdus[..i + 1], rets[..i + 1], conns) == prefix + [SendOp(pdus[i].data, rets[i])];
      ReplaySnocSend(t, prefix, pdus[i].data, rets[i]);
    } else {
      assert SendsTo(c, pdus[..i + 1], rets[..i + 1], conns) == prefix + [];
      assert prefix + [] == prefix;
    }
  }

  /** The asserts of rtmp_server_onconnect: the object encoding is AMF0 or AMF3, and a
      well-formed connect carries transaction 1 (as an int cast, 1.0 <= t < 2.0). */
  predicate CallbackPreconditions(o: Outcome)
  {
    o.Call? && o.inv.OnConnect? ==>
      (o.inv.connect.encoding == RTMP_ENCODING_AMF_0 || o.inv.connect.encoding == RTMP_ENCODING_AMF_3) &&
      (o.inv.r == 0 ==> 1.0 <= o.inv.transaction < 2.0)
  }

  class RtmpServer {
    /** s_lives: stream key to live stream. */
    var lives: map<string, LiveSource>
    /** s_rtmp_conn_map: connection handle to session. */
    var connMap: map<nat, RtmpConn>
    /** s_uuid_conn_map: uuid to session. */
    var uuidMap: map<nat, RtmpConn>
    /** s_response_pdu_list. */
    var responses: seq<ResponsePdu>
    var connHandleGenerator: nat
    var uuidAllocator: nat

    ghost predicate Valid()
      reads this
    {
      connHandleGenerator < UINT32_MODULUS && uuidAllocator < UINT32_MODULUS
    }

    constructor()
      ensures Valid()
      ensures lives == map[] && connMap == map[] && uuidMap == map[] && responses == []
      ensures connHandleGenerator == 0 && uuidAllocator == 0
    {
      lives := map[];
      connMap := map[];
      uuidMap := map[];
      responses := [];
      connHandleGenerator := 0;
      uuidAllocator := 0;
    }

    /** `new RtmpConn()`: a fresh session with the next handle and uuid, registered by
        uuid unless that uuid is still taken. */
    method NewConn() returns (conn: RtmpConn)
      requires Valid()
      modifies this`connHandleGenerator, this`uuidAllocator, this`uuidMap
      ensures Valid() && fresh(conn) && conn.Valid()
      ensures conn.connHandle == NextId(old(connHandleGenerator)) && connHandleGenerator == conn.connHandle
      ensures conn.uuid == NextId(old(uuidAllocator)) && uuidAllocator == conn.uuid
      ensures uuidMap == if conn.uuid in old(uuidMap) then old(uuidMap) else old(uuidMap)[conn.uuid := conn]
      ensures conn.handshakeState == HandshakeUninit && conn.recvBytes == Counters(0, 0)
      ensures conn.source == null && conn.consumer == null
    {
      connHandleGenerator := NextId(connHandleGenerator);
      uuidAllocator := NextId(uuidAllocator);
      conn := new RtmpConn(connHandleGenerator, uuidAllocator);
      if conn.uuid !in uuidMap {
        uuidMap := uuidMap[conn.uuid := conn];
      }
    }

    /** RtmpConn::OnConnect: the session owns the socket and is reachable by handle. */
    method OnConnect(conn: RtmpConn, handle: int)
      modifies conn`sockHandle, conn`connState, this`connMap
      ensures conn.sockHandle == handle && conn.connState == ConnConnected
      ensures connMap == if conn.connHandle in old(connMap) then old(connMap) else old(connMap)[conn.connHandle := conn]
    {
      conn.sockHandle := handle;
      conn.connState := ConnConnected;
      if conn.connHandle !in connMap {
        connMap := connMap[conn.connHandle := conn];
      }
    }

    /** rtmp_server_onpublish: on success record the publish and answer it; whatever r,
        the session becomes the publisher of its stream, creating the stream if needed. */
    method OnPublish(ctx: RtmpConn, r: int, transaction: real, streamName: string, streamType: string)
      returns (res: int)
      modifies ctx`startPlay, ctx`startTransaction, ctx`streamName, ctx`streamType, ctx`outbox, ctx`source
      modifies this`lives, lives.Values`conn
      ensures var key := StreamKey(ctx.info.app, streamName);
        key in lives && ctx.source == lives[key] && ctx.source.conn == ctx &&
        (key in old(lives) ==> lives == old(lives) && ctx.source.players == old(lives[key].players)) &&
        (key !in old(lives) ==> fresh(ctx.source) && lives == old(lives)[key := ctx.source] &&
                                ctx.source.players == [] && ctx.source.appStream == key)
      ensures forall s :: s in old(lives.Values) && s != ctx.source ==> s.conn == old(s.conn)
      ensures forall s :: s in old(lives.Values) ==> s.players == old(s.players)
      ensures ctx.consumer == old(ctx.consumer)
      ensures ctx.Commands() == CommandEffect(old(ctx.Commands()), ctx.windowSize, ctx.peerBandwidth,
                                              Invocation.OnPublish(r, transaction, streamName, streamType))
      ensures r == 0 ==>
        ctx.startPlay == 0 && ctx.startTransaction == transaction &&
        ctx.streamName == Truncate(streamName, STREAM_NAME_SIZE) &&
        ctx.streamType == Truncate(streamType, STREAM_TYPE_SIZE) &&
        ctx.outbox == old(ctx.outbox) +
          StartReplies(RTMP_SERVER_ONPUBLISH, ctx.startReset, transaction, ctx.streamId, 0, "")
      ensures r != 0 ==>
        ctx.startPlay == old(ctx.startPlay) && ctx.startTransaction == old(ctx.startTransaction) &&
        ctx.streamName == old(ctx.streamName) && ctx.streamType == old(ctx.streamType) &&
        ctx.outbox == old(ctx.outbox)
      ensures res == r
    {
      var key := StreamKey(ctx.info.app, streamName);
      res := ctx.BeginPublish(r, transaction, streamName, streamType);
      ghost var fields := ctx.Commands();
      if key !in lives {
        var source := new LiveSource(ctx, key);
        lives := lives[key := source];
        ctx.source := source;
      } else {
        ctx.source := lives[key];
        ctx.source.conn := ctx;
      }
      assert ctx.Commands() == fields;
    }

    /** rtmp_server_onplay: on success record the play and answer it; whatever r, the
        session then joins its stream as a player (JoinStream), and a repeated join is
        refused with -1. */
    method OnPlay(ctx: RtmpConn, r: int, transaction: real, streamName: string, start: real,
                  duration: real, reset: nat) returns (res: int)
      modifies ctx`startPlay, ctx`startReset, ctx`startTransaction, ctx`streamName, ctx`streamType
      modifies ctx`outbox, ctx`source, ctx`consumer, this`lives, lives.Values`players
      ensures var key := StreamKey(ctx.info.app, streamName);
        var before := if key in old(lives) then old(lives[key].players) else [];
        Joined(ctx, key, old(lives), before, old(ctx.source), old(ctx.consumer)) &&
        res == (if exists i :: 0 <= i < |before| && before[i].rtmp == ctx then -1 else r)
      ensures forall s :: s in old(lives.Values) && s != lives[StreamKey(ctx.info.app, streamName)] ==>
        s.players == old(s.players)
      ensures forall s :: s in old(lives.Values) ==> s.conn == old(s.conn)
      ensures ctx.Commands() == CommandEffect(old(ctx.Commands()), ctx.windowSize, ctx.peerBandwidth,
                                              Invocation.OnPlay(r, transaction, streamName, start, duration, reset))
      ensures var key := StreamKey(ctx.info.app, streamName);
        (key in old(lives) ==> old(lives[key].Valid())) ==> lives[key].Valid()
      ensures r == 0 ==> (
        ctx.startPlay == 0 && ctx.startReset == reset && ctx.startTransaction == transaction &&
        ctx.streamName == Truncate(streamName, STREAM_NAME_SIZE) &&
        ctx.streamType == (if start == -1.0 then RTMP_STREAM_LIVE else RTMP_STREAM_RECORD) &&
        ctx.outbox == old(ctx.outbox) +
          StartReplies(RTMP_SERVER_ONPLAY, reset, transaction, ctx.streamId, 0, ""))
      ensures r != 0 ==> (
        ctx.startPlay == old(ctx.startPlay) && ctx.startReset == old(ctx.startReset) &&
        ctx.startTransaction == old(ctx.startTransaction) &&
        ctx.streamName == old(ctx.streamName) && ctx.streamType == old(ctx.streamType) &&
        ctx.outbox == old(ctx.outbox))
    {
      var key := StreamKey(ctx.info.app, streamName);
      ghost var before := if key in lives then lives[key].players else [];
      ghost var source0, consumer0 := ctx.source, ctx.consumer;
      res := ctx.BeginPlay(r, transaction, streamName, start, duration, reset);
      ghost var fields := ctx.Commands();
      var joined := JoinStream(ctx, key);
      assert ctx.Commands() == fields;
      assert Joined(ctx, key, old(lives), before, source0, consumer0);
      if !joined {
        res := -1;
      }
    }

    /** The registry state after session ctx asked to play the stream `key`: the stream
        exists (created without publisher if it was missing), and unless ctx already
        played it, ctx is appended as a fresh consumer and now plays it. */
    ghost predicate Joined(ctx: RtmpConn, key: string, lives0: map<string, LiveSource>,
                           before: seq<LiveConsumer>, source0: LiveSource?, consumer0: LiveConsumer?)
      reads this, ctx, lives.Values, ctx.consumer
    {
      key in lives &&
      (key in lives0 ==> lives == lives0) &&
      (key !in lives0 ==> lives == lives0[key := lives[key]] &&
                          lives[key].conn == ctx && lives[key].appStream == key) &&
      if exists i :: 0 <= i < |before| && before[i].rtmp == ctx then
        lives[key].players == before && ctx.source == source0 && ctx.consumer == consumer0
      else
        ctx.consumer != null && ctx.consumer.rtmp == ctx &&
        lives[key].players == before + [ctx.consumer] && ctx.source == lives[key]
    }

    /** The registry part of rtmp_server_onplay. Returns false for a repeated join. */
    method JoinStream(ctx: RtmpConn, key: string) returns (joined: bool)
      modifies ctx`source, ctx`consumer, this`lives, lives.Values`players
      ensures var before := if key in old(lives) then old(lives[key].players) else [];
        Joined(ctx, key, old(lives), before, old(ctx.source), old(ctx.consumer)) &&
        (joined <==> !exists i :: 0 <= i < |before| && before[i].rtmp == ctx) &&
        (key !in old(lives) ==> fresh(lives[key])) &&
        (joined ==> fresh(ctx.consumer))
      ensures forall s :: s in old(lives.Values) && s != lives[key] ==> s.players == old(s.players)
      ensures (key in old(lives) ==> old(lives[key].Valid())) ==> lives[key].Valid()
    {
      var s: LiveSource;
      if key !in lives {
        s := new LiveSource(ctx, key);
        lives := lives[key := s];
      } else {
        s := lives[key];
      }
      var repeat := s.HasPlayer(ctx);
      if repeat {
        return false;
      }
      var player := new LiveConsumer(ctx);
      s.players := s.players + [player];
      ctx.source := s;
      ctx.consumer := player;
      joined := true;
    }

    /** rtmp_server_onaudio / _onvideo / _onscript: keep the first tag of the kind, then
        relay the tag to the players of the session's stream. */
    method OnMedia(ctx: RtmpConn, kind: TagKind, tag: TagBuffer) returns (res: int)
      requires ctx.source != null && ctx.source.Valid()
      modifies ctx`cache
      modifies ctx.source.Sessions()`outbox, ctx.source.Sessions()`sentAudio
      modifies ctx.source.Sessions()`sentVideo, ctx.source.Sessions()`sentScript
      ensures ctx.cache == CacheTag(old(ctx.cache), kind, tag)
      ensures var s := ctx.source;
        s.conn != null ==> forall i :: 0 <= i < |s.players| ==>
          var d := Deliver(old(s.players[i].rtmp.Player()), Cached(s.conn.cache, kind), kind, tag);
          s.players[i].rtmp.Player() == d.0 && s.players[i].rtmp.outbox == old(s.players[i].rtmp.outbox) + d.1
      ensures var s := ctx.source;
        s.conn == null ==> forall i :: 0 <= i < |s.players| ==>
          s.players[i].rtmp.Player() == old(s.players[i].rtmp.Player()) &&
          s.players[i].rtmp.outbox == old(s.players[i].rtmp.outbox)
      ensures res == 0
    {
      ctx.cache := CacheTag(ctx.cache, kind, tag);
      var _ := ctx.source.Handler(kind, tag);
      res := 0;
    }

    /** The stream part of rtmp_server_onclose, as written: it dereferences
        rtmp_source_ unchecked, so only a session that published or played can close. A
        player leaves its stream; a publisher with players leaves the stream without
        publisher; a publisher without players removes the stream. */
    method OnClose(ctx: RtmpConn)
      requires ctx.source != null
      modifies ctx.source`players, ctx.source`conn, this`lives
      ensures ctx.consumer != null ==> (
        ctx.source.players == RemoveFirst(old(ctx.source.players), ctx.consumer) &&
        ctx.source.conn == old(ctx.source.conn) && lives == old(lives))
      ensures ctx.consumer == null && |old(ctx.source.players)| > 0 ==> (
        ctx.source.conn == null && ctx.source.players == old(ctx.source.players) && lives == old(lives))
      ensures ctx.consumer == null && |old(ctx.source.players)| == 0 ==> (
        lives == Unregister(old(lives), ctx.source) &&
        ctx.source.conn == old(ctx.source.conn) && ctx.source.players == old(ctx.source.players))
    {
      var s := ctx.source;
      if ctx.consumer != null {
        s.RemovePlayer(ctx.consumer);
      } else if |s.players| > 0 {
        s.conn := null;
      } else {
        UnregisterSource(s);
      }
    }

    /** The stream a session publishes or plays, if any. */
    function SourceOf(ctx: RtmpConn): (ss: set<LiveSource>)
      reads ctx
      ensures ctx.source != null ==> ss == {ctx.source}
      ensures ctx.source == null ==> ss == {}
    {
      if ctx.source == null then {} else {ctx.source}
    }

    /** rtmp_server_onclose with the missing check: a session that never published or
        played leaves the registry alone. */
    method OnCloseChecked(ctx: RtmpConn)
      modifies SourceOf(ctx)`players, SourceOf(ctx)`conn, this`lives
      ensures ctx.source == null ==> lives == old(lives)
      ensures ctx.source != null && ctx.consumer != null ==> (
        ctx.source.players == RemoveFirst(old(ctx.source.players), ctx.consumer) &&
        ctx.source.conn == old(ctx.source.conn) && lives == old(lives))
      ensures ctx.source != null && ctx.consumer == null && |old(ctx.source.players)| > 0 ==> (
        ctx.source.conn == null && ctx.source.players == old(ctx.source.players) && lives == old(lives))
      ensures ctx.source != null && ctx.consumer == null && |old(ctx.source.players)| == 0 ==> (
        lives == Unregister(old(lives), ctx.source) &&
        ctx.source.conn == old(ctx.source.conn) && ctx.source.players == old(ctx.source.players))
    {
      if ctx.source != null {
        OnClose(ctx);
      }
    }

    /** The erase loop of rtmp_server_onclose: every key that maps to the stream goes. */
    method UnregisterSource(s: LiveSource)
      modifies this`lives
      ensures lives == Unregister(old(lives), s)
    {
      var keys := lives.Keys;
      while keys != {}
        invariant keys <= lives.Keys
        invariant forall k :: k in lives <==> k in old(lives) && (k in keys || old(lives)[k] != s)
        invariant forall k :: k in lives ==> lives[k] == old(lives)[k]
        decreases keys
      {
        var k :| k in keys;
        if lives[k] == s {
          lives := lives - {k};
        }
        keys := keys - {k};
      }
      assert lives == Unregister(old(lives), s);
    }

    /** RtmpConn::Close: leave the registry (with the null check added), mark the
        session closed and forget its handle and uuid. */
    method Close(ctx: RtmpConn)
      modifies SourceOf(ctx)`players, SourceOf(ctx)`conn, this`lives
      modifies ctx`connState, this`connMap, this`uuidMap
      ensures ctx.connState == ConnClosed
      ensures connMap == old(connMap) - {ctx.connHandle} && uuidMap == old(uuidMap) - {ctx.uuid}
      ensures ctx.source == null ==> lives == old(lives)
      ensures ctx.source != null && ctx.consumer != null ==> (
        ctx.source.players == RemoveFirst(old(ctx.source.players), ctx.consumer) &&
        ctx.source.conn == old(ctx.source.conn) && lives == old(lives))
      ensures ctx.source != null && ctx.consumer == null && |old(ctx.source.players)| > 0 ==> (
        ctx.source.conn == null && ctx.source.players == old(ctx.source.players) && lives == old(lives))
      ensures ctx.source != null && ctx.consumer == null && |old(ctx.source.players)| == 0 ==> (
        lives == Unregister(old(lives), ctx.source) &&
        ctx.source.conn == old(ctx.source.conn) && ctx.source.players == old(ctx.source.players))
    {
      OnCloseChecked(ctx);
      ctx.connState := ConnClosed;
      connMap := connMap - {ctx.connHandle};
      uuidMap := uuidMap - {ctx.uuid};
    }

    /** RtmpConn::AddResponseData: queue a response for a session by uuid. */
    method AddResponseData(uuid: nat, data: seq<byte>)
      modifies this`responses
      ensures responses == old(responses) + [ResponsePdu(uuid, data)]
    {
      responses := responses + [ResponsePdu(uuid, data)];
    }

    /** RtmpConn::SendResponseDataList: drain the queue front to back, sending each
        response to its session if that uuid still has one; rets[i] is what the socket
        accepts of the i-th response. */
    method SendResponseDataList(rets: seq<int>)
      requires |rets| == |responses|
      requires forall i :: 0 <= i < |responses| ==> rets[i] <= |responses[i].data|
      modifies uuidMap.Values`transport, this`responses
      ensures responses == []
      ensures forall c :: c in uuidMap.Values ==>
        c.transport == Replay(old(c.transport), SendsTo(c, old(responses), rets, uuidMap))
    {
      ghost var pdus := responses;
      var i := 0;
      while responses != []
        invariant 0 <= i <= |pdus| && responses == pdus[i..]
        invariant forall c :: c in uuidMap.Values ==>
          c.transport == Replay(old(c.transport), SendsTo(c, pdus[..i], rets[..i], uuidMap))
        decreases |responses|
      {
        var pdu := responses[0];
        forall c | c in uuidMap.Values
          ensures Replay(old(c.transport), SendsTo(c, pdus[..i + 1], rets[..i + 1], uuidMap)) ==
            if pdu.uuid in uuidMap && uuidMap[pdu.uuid] == c then SendStep(c.transport, pdu.data, rets[i])
            else c.transport
        {
          DrainStep(c, old(c.transport), pdus, rets, uuidMap, i);
        }
        responses := responses[1..];
        if pdu.uuid in uuidMap {
          var conn := uuidMap[pdu.uuid];
          var _ := conn.Send(pdu.data, rets[i]);
        }
        i := i + 1;
      }
      assert pdus[..i] == pdus && rets[..i] == rets;
    }

    /** rtmp_invoke_handler with this server's callbacks: decode the command and run
        the session callback it names; clientResult stands for the client-side handlers,
        which are not part of this model. */
    method InvokeHandler(ctx: RtmpConn, reader: AmfReader, data: seq<byte>, clientResult: int)
      returns (res: int)
      requires CallbackPreconditions(Dispatch(reader, SERVER_CALLBACKS, data))
      modifies ctx`info, ctx`outbox, ctx`outChunkSize, ctx`streamId, ctx`receiveAudio, ctx`receiveVideo
      modifies ctx`startPlay, ctx`startReset, ctx`startTransaction, ctx`streamName, ctx`streamType
      modifies ctx`source, ctx`consumer, this`lives, lives.Values`players, lives.Values`conn
      ensures var o := Dispatch(reader, SERVER_CALLBACKS, data);
        !o.Call? ==> res == ReturnCode(o, clientResult) && unchanged(ctx) && lives == old(lives)
      ensures var o := Dispatch(reader, SERVER_CALLBACKS, data);
        o.Call? ==> ctx.Commands() == CommandEffect(old(ctx.Commands()), ctx.windowSize, ctx.peerBandwidth, o.inv)
      ensures var o := Dispatch(reader, SERVER_CALLBACKS, data);
        o.Call? && !o.inv.OnPlay? && !o.inv.OnPublish? ==>
          res == o.inv.r && lives == old(lives) && ctx.source == old(ctx.source) &&
          ctx.consumer == old(ctx.consumer) &&
          forall s :: s in old(lives.Values) ==> s.players == old(s.players) && s.conn == old(s.conn)
      ensures var o := Dispatch(reader, SERVER_CALLBACKS, data);
        o.Call? && o.inv.OnPlay? ==>
          var key := StreamKey(ctx.info.app, o.inv.streamName);
          var before := if key in old(lives) then old(lives[key].players) else [];
          Joined(ctx, key, old(lives), before, old(ctx.source), old(ctx.consumer)) &&
          res == (if exists i :: 0 <= i < |before| && before[i].rtmp == ctx then -1 else o.inv.r)
      // Playing changes no publisher, and no other stream's players.
      ensures var o := Dispatch(reader, SERVER_CALLBACKS, data);
        o.Call? && o.inv.OnPlay? ==>
          (forall s :: s in old(lives.Values) ==> s.conn == old(s.conn)) &&
          forall s :: s in old(lives.Values) && s != lives[StreamKey(ctx.info.app, o.inv.streamName)] ==>
            s.players == old(s.players)
      ensures var o := Dispatch(reader, SERVER_CALLBACKS, data);
        o.Call? && o.inv.OnPublish? ==>
          var key := StreamKey(ctx.info.app, o.inv.streamName);
          res == o.inv.r && key in lives && ctx.source == lives[key] && ctx.source.conn == ctx &&
          (key in old(lives) ==> lives == old(lives) && ctx.source.players == old(lives[key].players)) &&
          (key !in old(lives) ==> lives == old(lives)[key := ctx.source] && ctx.source.players == [])
      // Publishing changes no player list, no other stream's publisher, and not the session's player entry.
      ensures var o := Dispatch(reader, SERVER_CALLBACKS, data);
        o.Call? && o.inv.OnPublish? ==>
          ctx.consumer == old(ctx.consumer) &&
          (forall s :: s in old(lives.Values) ==> s.players == old(s.players)) &&
          forall s :: s in old(lives.Values) && s != ctx.source ==> s.conn == old(s.conn)
    {
      var o := Dispatch(reader, SERVER_CALLBACKS, data);
      if !o.Call? {
        return ReturnCode(o, clientResult);
      }
      match o.inv
      case OnPlay(r, t, name, start, duration, reset) => res := OnPlay(ctx, r, t, name, start, duration, reset);
      case OnPublish(r, t, name, kind) => res := OnPublish(ctx, r, t, name, kind);
      case _ => res := ctx.RunCommand(o.inv);
    }
  }
}
