/** The buffered non-blocking write path of a session (RtmpConn::Send and
    RtmpConn::OnWrite). `wire` is what the socket has accepted so far, `outBuf` the
    bytes waiting for the next writable event, and `busy` says a write is pending.
    The socket's return value is a parameter: a negative value is an error, which the
    session treats as nothing sent. */
module TransportSpec {
  import opened RtmpInternal

  datatype Transport = Transport(busy: bool, outBuf: seq<byte>, wire: seq<byte>)

  /** A fresh session: nothing pending, nothing sent. */
  function InitialTransport(): (t: Transport)
    ensures Coherent(t) && t.wire == [] && t.outBuf == []
  {
    Transport(false, [], [])
  }

  /** A write is pending exactly when bytes are waiting. */
  predicate Coherent(t: Transport)
  {
    t.busy <==> |t.outBuf| > 0
  }

  /** Bytes the socket took, given its return value for a write of len bytes. */
  function Accepted(ret: int, len: nat): (k: nat)
    requires ret <= len
    ensures k <= len
    ensures ret >= 0 ==> k == ret
  {
    if ret < 0 then 0 else ret
  }

  /** RtmpConn::Send of `data`: while a write is pending the data is queued behind it;
      otherwise it goes to the socket and whatever the socket did not take is queued. */
  function SendStep(t: Transport, data: seq<byte>, ret: int): (t': Transport)
    requires ret <= |data|
    ensures Coherent(t) ==> t'.wire + t'.outBuf == t.wire + t.outBuf + data
    ensures t.wire <= t'.wire
    ensures t.busy ==> t'.wire == t.wire && t'.busy
    ensures Coherent(t) ==> Coherent(t')
    ensures !t.busy && ret >= |data| ==> t' == t.(wire := t.wire + data)
  {
    if t.busy then
      t.(outBuf := t.outBuf + data)
    else
      var k := Accepted(ret, |data|);
      if k < |data| then
        Transport(true, t.outBuf + data[k..], t.wire + data[..k])
      else
        t.(wire := t.wire + data)
  }

  /** RtmpConn::OnWrite: if a write is pending, hand the queued bytes to the socket and
      keep what it did not take. */
  function WriteStep(t: Transport, ret: int): (t': Transport)
    requires ret <= |t.outBuf|
    ensures t'.wire + t'.outBuf == t.wire + t.outBuf
    ensures t.wire <= t'.wire
    ensures !t.busy ==> t' == t
    ensures Coherent(t) ==> Coherent(t')
    ensures t.busy && ret >= |t.outBuf| ==> !t'.busy && t'.outBuf == []
  {
    if !t.busy then t
    else
      var k := Accepted(ret, |t.outBuf|);
      Transport(k < |t.outBuf|, t.outBuf[k..], t.wire + t.outBuf[..k])
  }

  /** One event on the write path, with the socket's return value. */
  datatype Op = SendOp(data: seq<byte>, ret: int) | WriteOp(ret: int)

  /** Applies a run of events; an event whose return value is larger than the write
      it answers cannot come from a socket, so the run stops there. */
  function Replay(t: Transport, ops: seq<Op>): Transport
    decreases |ops|
  {
    if ops == [] then t
    else match ops[0]
      case SendOp(data, ret) =>
        if ret <= |data| then Replay(SendStep(t, data, ret), ops[1..]) else t
      case WriteOp(ret) =>
        if ret <= |t.outBuf| then Replay(WriteStep(t, ret), ops[1..]) else t
  }

  /** The bytes passed to Send by the events Replay applies. */
  function Sent(t: Transport, ops: seq<Op>): seq<byte>
    decreases |ops|
  {
    if ops == [] then []
    else match ops[0]
      case SendOp(data, ret) =>
        if ret <= |data| then data + Sent(SendStep(t, data, ret), ops[1..]) else []
      case WriteOp(ret) =>
        if ret <= |t.outBuf| then Sent(WriteStep(t, ret), ops[1..]) else []
  }

  /** Over any run of events no byte is lost, duplicated or reordered: what reached the
      socket followed by what is still queued is exactly what was sent, in order; the
      socket's view only grows, and busy keeps meaning "bytes are queued". */
  lemma {:induction false} ReplayKeepsOrder(t: Transport, ops: seq<Op>)
    requires Coherent(t)
    ensures Replay(t, ops).wire + Replay(t, ops).outBuf == t.wire + t.outBuf + Sent(t, ops)
    ensures t.wire <= Replay(t, ops).wire
    ensures Coherent(Replay(t, ops))
    decreases |ops|
  {
    if ops != [] {
      match ops[0]
      case SendOp(data, ret) =>
        if ret <= |data| {
          var t' := SendStep(t, data, ret);
          ReplayKeepsOrder(t', ops[1..]);
          assert t.wire + t.outBuf + (data + Sent(t', ops[1..]))
              == (t.wire + t.outBuf + data) + Sent(t', ops[1..]);
        }
      case WriteOp(ret) =>
        if ret <= |t.outBuf| {
          ReplayKeepsOrder(WriteStep(t, ret), ops[1..]);
        }
    }
  }

  /** Once a session that started fresh is no longer busy, the socket has received
      every byte ever sent, in order. */
  lemma IdleMeansDelivered(ops: seq<Op>)
    requires !Replay(InitialTransport(), ops).busy
    ensures Replay(InitialTransport(), ops).wire == Sent(InitialTransport(), ops)
  {
    var t := Replay(InitialTransport(), ops);
    ReplayKeepsOrder(InitialTransport(), ops);
    assert t.outBuf == [];
    assert t.wire + t.outBuf == t.wire;
  }

  /** A run of Send calls, each answered with a return value a socket can give. */
  predicate PlausibleSends(ops: seq<Op>)
  {
    forall i :: 0 <= i < |ops| ==> ops[i].SendOp? && ops[i].ret <= |ops[i].data|
  }

  /** Extending a run of sends by one more applies one more SendStep. */
  lemma {:induction false} ReplaySnocSend(t: Transport, ops: seq<Op>, data: seq<byte>, ret: int)
    requires PlausibleSends(ops) && ret <= |data|
    ensures Replay(t, ops + [SendOp(data, ret)]) == SendStep(Replay(t, ops), data, ret)
    decreases |ops|
  {
    if ops == [] {
      assert [SendOp(data, ret)][1..] == [];
    } else {
      assert (ops + [SendOp(data, ret)])[1..] == ops[1..] + [SendOp(data, ret)];
      ReplaySnocSend(SendStep(t, ops[0].data, ops[0].ret), ops[1..], data, ret);
    }
  }

  /** The bytes a run of Send calls passes, in order. */
  function SendData(ops: seq<Op>): (bytes: seq<byte>)
    decreases |ops|
  {
    if ops == [] then []
    else (if ops[0].SendOp? then ops[0].data else []) + SendData(ops[1..])
  }

  lemma {:induction false} SendDataSnoc(ops: seq<Op>, data: seq<byte>, ret: int)
    ensures SendData(ops + [SendOp(data, ret)]) == SendData(ops) + data
    decreases |ops|
  {
    if ops == [] {
      assert [SendOp(data, ret)][1..] == [];
    } else {
      assert (ops + [SendOp(data, ret)])[1..] == ops[1..] + [SendOp(data, ret)];
      SendDataSnoc(ops[1..], data, ret);
    }
  }

  /** For a run of plausible Send calls, Replay applies all of them. */
  lemma {:induction false} SentOfSends(t: Transport, ops: seq<Op>)
    requires PlausibleSends(ops)
    ensures Sent(t, ops) == SendData(ops)
    decreases |ops|
  {
    if ops != [] {
      SentOfSends(SendStep(t, ops[0].data, ops[0].ret), ops[1..]);
    }
  }
}
