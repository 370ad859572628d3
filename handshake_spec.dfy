/** The server side of the RTMP handshake (section 5.2 of the RTMP specification) as
    RtmpConn::rtmp_server_input runs it: C0 is one byte, C1 and C2 are 1536 bytes each,
    and the S0+S1+S2 reply goes out once C1 is complete. The state is summarised by
    the number of input bytes the handshake has consumed. */
module HandshakeSpec {
  import opened Wrappers
  import opened RtmpConnDefs

  /** RTMP_HANDSHAKE_UNINIT, _0 (C0 read), _1 (C1 read, reply sent), _2 (done). */
  datatype HandshakeState = HandshakeUninit | Handshake0 | Handshake1 | Handshake2

  /** Input bytes consumed once C0 and C1 are in. */
  const C1_END: nat := 1 + RTMP_HANDSHAKE_SIZE
  /** Input bytes the whole client side of the handshake takes: C0 + C1 + C2. */
  const HANDSHAKE_TOTAL: nat := 1 + 2 * RTMP_HANDSHAKE_SIZE

  /** Between two calls a partly received C1 or C2 is shorter than a block. */
  predicate Between(state: HandshakeState, handshakeBytes: nat)
  {
    (state == Handshake0 || state == Handshake1) ==> handshakeBytes < RTMP_HANDSHAKE_SIZE
  }

  /** Number of input bytes the handshake has consumed in a given state. */
  function Consumed(state: HandshakeState, handshakeBytes: nat): (c: nat)
    requires Between(state, handshakeBytes)
    ensures c <= HANDSHAKE_TOTAL
    ensures c == 0 <==> state == HandshakeUninit
    ensures c == HANDSHAKE_TOTAL <==> state == Handshake2
  {
    match state
    case HandshakeUninit => 0
    case Handshake0 => 1 + handshakeBytes
    case Handshake1 => C1_END + handshakeBytes
    case Handshake2 => HANDSHAKE_TOTAL
  }

  /** The state and block offset after `c` handshake bytes. */
  function StateOf(c: nat): (r: (HandshakeState, nat))
    requires c <= HANDSHAKE_TOTAL
    ensures Between(r.0, r.1) && Consumed(r.0, r.1) == c
  {
    if c == 0 then (HandshakeUninit, 0)
    else if c < C1_END then (Handshake0, c - 1)
    else if c < HANDSHAKE_TOTAL then (Handshake1, c - C1_END)
    else (Handshake2, 0)
  }

  /** Consumed and StateOf are inverse on states whose offset is meaningful. */
  lemma StateOfConsumed(state: HandshakeState, handshakeBytes: nat)
    requires Between(state, handshakeBytes)
    requires state == HandshakeUninit || state == Handshake2 ==> handshakeBytes == 0
    ensures StateOf(Consumed(state, handshakeBytes)) == (state, handshakeBytes)
  {
  }

  /** Handshake bytes consumed after an input of n more bytes. */
  function Advance(c: nat, n: nat): (c': nat)
    requires c <= HANDSHAKE_TOTAL
    ensures c <= c' <= HANDSHAKE_TOTAL
  {
    Min(c + n, HANDSHAKE_TOTAL)
  }

  /** Bytes of an n-byte input that are left over for the chunk reader. */
  function Forwarded(c: nat, n: nat): nat
    requires c <= HANDSHAKE_TOTAL
  {
    n - (Advance(c, n) - c)
  }

  /** Number of S0+S1+S2 replies one input of n bytes causes. */
  function RepliesOn(c: nat, n: nat): nat
  {
    if c < C1_END <= c + n then 1 else 0
  }

  /** The handshake position after a sequence of inputs of the given sizes. */
  function AfterInputs(c: nat, sizes: seq<nat>): (c': nat)
    requires c <= HANDSHAKE_TOTAL
    ensures c' <= HANDSHAKE_TOTAL
    decreases |sizes|
  {
    if sizes == [] then c else AfterInputs(Advance(c, sizes[0]), sizes[1..])
  }

  /** Replies sent over a sequence of inputs. */
  function RepliesAfter(c: nat, sizes: seq<nat>): nat
    requires c <= HANDSHAKE_TOTAL
    decreases |sizes|
  {
    if sizes == [] then 0
    else RepliesOn(c, sizes[0]) + RepliesAfter(Advance(c, sizes[0]), sizes[1..])
  }

  /** Bytes handed to the chunk reader over a sequence of inputs. */
  function ForwardedAfter(c: nat, sizes: seq<nat>): nat
    requires c <= HANDSHAKE_TOTAL
    decreases |sizes|
  {
    if sizes == [] then 0
    else Forwarded(c, sizes[0]) + ForwardedAfter(Advance(c, sizes[0]), sizes[1..])
  }

  /** However the input is cut into reads, the result depends only on its total length:
      the handshake has consumed min(total, 3073) bytes, the reply went out exactly once
      if and only if C1 was completed during these reads, and every byte beyond the
      3073th went to the chunk reader. */
  lemma {:induction false} FragmentationIrrelevant(c: nat, sizes: seq<nat>)
    requires c <= HANDSHAKE_TOTAL
    ensures AfterInputs(c, sizes) == Min(c + Sum(sizes), HANDSHAKE_TOTAL)
    ensures RepliesAfter(c, sizes) == (if c < C1_END <= c + Sum(sizes) then 1 else 0)
    ensures ForwardedAfter(c, sizes) == Max(0, c + Sum(sizes) - HANDSHAKE_TOTAL)
    decreases |sizes|
  {
    if sizes != [] {
      FragmentationIrrelevant(Advance(c, sizes[0]), sizes[1..]);
    }
  }

  /** From a fresh session: the handshake is done exactly when 3073 bytes have arrived,
      one reply has been sent once at least 1537 bytes (C0 and C1) have arrived, and
      none before. */
  lemma FromFreshSession(sizes: seq<nat>)
    ensures AfterInputs(0, sizes) == HANDSHAKE_TOTAL <==> Sum(sizes) >= HANDSHAKE_TOTAL
    ensures RepliesAfter(0, sizes) == (if Sum(sizes) >= C1_END then 1 else 0)
    ensures RepliesAfter(0, sizes) <= 1
  {
    FragmentationIrrelevant(0, sizes);
  }

  /** HANDSHAKE_2 is never left: from the end state nothing more is consumed, no reply
      is sent, and every byte is forwarded. */
  lemma DoneIsFinal(sizes: seq<nat>)
    ensures AfterInputs(HANDSHAKE_TOTAL, sizes) == HANDSHAKE_TOTAL
    ensures RepliesAfter(HANDSHAKE_TOTAL, sizes) == 0
    ensures ForwardedAfter(HANDSHAKE_TOTAL, sizes) == Sum(sizes)
  {
    FragmentationIrrelevant(HANDSHAKE_TOTAL, sizes);
  }
}
