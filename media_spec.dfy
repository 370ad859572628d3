/** Media relay of a live stream. The publisher's session keeps the first audio, video
    and script tag it receives (the AAC AudioSpecificConfig, the AVC decoder
    configuration record and the onMetaData script); every tag is then handed to each
    player, which first sends the publisher's cached tag of the same kind if it has not
    done so yet and then the tag itself. Audio and video honour the player's
    receiveAudio / receiveVideo flags; script data is always sent. */
module MediaSpec {
  import opened Wrappers
  import opened RtmpInternal
  import opened RtmpConnDefs

  /** The chunk message rtmp_server_send_audio / _video / _script writes for a tag:
      compact (type 1) header, the kind's channel and message type, the player's
      message stream. */
  function TagMessage(kind: TagKind, tag: TagBuffer, streamId: nat): (m: Message)
    ensures m.Media? && m.data == tag.data
    ensures m.header.fmt == RTMP_CHUNK_TYPE_1 && m.header.timestamp == tag.timestamp
    ensures m.header.length == |tag.data| && m.header.streamId == streamId
    ensures m.header.msgType == FlvTagType(kind)
    ensures ChannelOfType(m.header.msgType) != None
    ensures m.header.cid == ChannelId(match kind
                                      case Audio => ChannelAudio
                                      case Video => ChannelVideo
                                      case Script => ChannelInvoke)
  {
    match kind
    case Audio =>
      Media(ChunkHeader(RTMP_CHUNK_TYPE_1, ChannelId(ChannelAudio), tag.timestamp, |tag.data|,
                        RTMP_TYPE_AUDIO, streamId), tag.data)
    case Video =>
      Media(ChunkHeader(RTMP_CHUNK_TYPE_1, ChannelId(ChannelVideo), tag.timestamp, |tag.data|,
                        RTMP_TYPE_VIDEO, streamId), tag.data)
    case Script =>
      Media(ChunkHeader(RTMP_CHUNK_TYPE_1, ChannelId(ChannelInvoke), tag.timestamp, |tag.data|,
                        RTMP_TYPE_DATA, streamId), tag.data)
  }

  /** What a player's session needs for the fan-out: its receive flags, its message
      stream and whether the cached tag of each kind has been sent. */
  datatype PlayerState = PlayerState(receiveAudio: nat, receiveVideo: nat, streamId: nat,
                                     sentAudio: bool, sentVideo: bool, sentScript: bool)

  /** A session that has just started playing a stream: both receive flags on. */
  function FreshPlayer(streamId: nat): (p: PlayerState)
    ensures Wants(p, Audio) && Wants(p, Video) && Wants(p, Script)
    ensures forall k :: !SentConfig(p, k)
  {
    PlayerState(1, 1, streamId, false, false, false)
  }

  /** Whether the player takes tags of a kind. */
  predicate Wants(p: PlayerState, kind: TagKind)
  {
    match kind
    case Audio => p.receiveAudio != 0
    case Video => p.receiveVideo != 0
    case Script => true
  }

  predicate SentConfig(p: PlayerState, kind: TagKind)
  {
    match kind
    case Audio => p.sentAudio
    case Video => p.sentVideo
    case Script => p.sentScript
  }

  function MarkSent(p: PlayerState, kind: TagKind): (p': PlayerState)
    ensures forall k :: SentConfig(p', k) <==> SentConfig(p, k) || k == kind
    ensures forall k :: Wants(p', k) <==> Wants(p, k)
    ensures p'.streamId == p.streamId
  {
    match kind
    case Audio => p.(sentAudio := true)
    case Video => p.(sentVideo := true)
    case Script => p.(sentScript := true)
  }

  /** One tag sent to one player (rtmp_server_send_audio / _video / _script). */
  function SendTag(p: PlayerState, kind: TagKind, tag: TagBuffer): (out: seq<Message>)
    ensures |out| <= 1
    ensures |out| == 1 <==> Wants(p, kind)
    ensures forall m :: m in out ==> m == TagMessage(kind, tag, p.streamId)
  {
    if Wants(p, kind) then [TagMessage(kind, tag, p.streamId)] else []
  }

  /** The first tag of each kind a publisher's session has received. */
  datatype Cache = Cache(audio: Option<TagBuffer>, video: Option<TagBuffer>, script: Option<TagBuffer>)

  function Cached(c: Cache, kind: TagKind): Option<TagBuffer>
  {
    match kind
    case Audio => c.audio
    case Video => c.video
    case Script => c.script
  }

  /** rtmp_server_onaudio / _onvideo / _onscript: the tag is kept only when nothing of
      its kind is cached yet. */
  function CacheTag(c: Cache, kind: TagKind, tag: TagBuffer): (c': Cache)
    ensures Cached(c', kind) == (if Cached(c, kind).Some? then Cached(c, kind) else Some(tag))
    ensures forall k :: k != kind ==> Cached(c', k) == Cached(c, k)
  {
    match kind
    case Audio => if c.audio.Some? then c else c.(audio := Some(tag))
    case Video => if c.video.Some? then c else c.(video := Some(tag))
    case Script => if c.script.Some? then c else c.(script := Some(tag))
  }

  /** LiveConsumer::handler: the cached tag of the same kind goes first, once, then the
      tag. The "sent" flag is set even when the player does not take that kind. */
  function Deliver(p: PlayerState, cached: Option<TagBuffer>, kind: TagKind, tag: TagBuffer)
    : (r: (PlayerState, seq<Message>))
    ensures forall k :: SentConfig(p, k) ==> SentConfig(r.0, k)
    ensures cached.Some? ==> SentConfig(r.0, kind)
    ensures forall k :: Wants(r.0, k) <==> Wants(p, k)
    ensures r.0.streamId == p.streamId
    ensures Wants(p, kind) && cached.Some? && !SentConfig(p, kind) ==>
              r.1 == [TagMessage(kind, cached.value, p.streamId), TagMessage(kind, tag, p.streamId)]
    ensures (cached.None? || SentConfig(p, kind)) ==> r == (p, SendTag(p, kind, tag))
    ensures !Wants(p, kind) ==> r.1 == []
  {
    if cached.Some? && !SentConfig(p, kind) then
      (MarkSent(p, kind), SendTag(p, kind, cached.value) + SendTag(p, kind, tag))
    else
      (p, SendTag(p, kind, tag))
  }

  /** Number of tags in a run the player takes. */
  function WantedCount(p: PlayerState, tags: seq<(TagKind, TagBuffer)>): (n: nat)
    ensures n <= |tags|
  {
    if tags == [] then 0
    else (if Wants(p, tags[0].0) then 1 else 0) + WantedCount(p, tags[1..])
  }

  /** Number of kinds whose cached tag the player has still to receive. */
  function Unsent(p: PlayerState): (n: nat)
    ensures n <= 3
  {
    (if p.sentAudio then 0 else 1) + (if p.sentVideo then 0 else 1) + (if p.sentScript then 0 else 1)
  }

  /** The publisher's cache after a run of tags. */
  function CacheAll(c: Cache, tags: seq<(TagKind, TagBuffer)>): Cache
    decreases |tags|
  {
    if tags == [] then c else CacheAll(CacheTag(c, tags[0].0, tags[0].1), tags[1..])
  }

  /** The first tag of a given kind in a run. */
  function FirstOf(kind: TagKind, tags: seq<(TagKind, TagBuffer)>): Option<TagBuffer>
  {
    if tags == [] then None
    else if tags[0].0 == kind then Some(tags[0].1)
    else FirstOf(kind, tags[1..])
  }

  /** A run of tags relayed from a publisher (whose cache is updated before each
      fan-out, as rtmp_server_onaudio does) to one player. */
  function DeliverAll(p: PlayerState, c: Cache, tags: seq<(TagKind, TagBuffer)>)
    : (r: (PlayerState, seq<Message>))
    decreases |tags|
  {
    if tags == [] then (p, [])
    else
      var c' := CacheTag(c, tags[0].0, tags[0].1);
      var step := Deliver(p, Cached(c', tags[0].0), tags[0].0, tags[0].1);
      var rest := DeliverAll(step.0, c', tags[1..]);
      (rest.0, step.1 + rest.1)
  }

  /** The cache only ever keeps the first tag of each kind: what was cached stays, and
      an empty slot is filled by the first tag of its kind. */
  lemma {:induction false} CacheKeepsFirst(c: Cache, tags: seq<(TagKind, TagBuffer)>, kind: TagKind)
    ensures Cached(CacheAll(c, tags), kind) ==
              (if Cached(c, kind).Some? then Cached(c, kind) else FirstOf(kind, tags))
    decreases |tags|
  {
    if tags != [] {
      CacheKeepsFirst(CacheTag(c, tags[0].0, tags[0].1), tags[1..], kind);
    }
  }

  /** Each taken tag reaches the player, plus at most one cached tag per kind not yet
      sent; afterwards every kind that occurred in the run has its flag set. */
  lemma {:induction false} DeliverAllBounds(p: PlayerState, c: Cache, tags: seq<(TagKind, TagBuffer)>)
    ensures var r := DeliverAll(p, c, tags);
      WantedCount(p, tags) <= |r.1| <= WantedCount(p, tags) + Unsent(p) - Unsent(r.0)
    ensures forall k :: SentConfig(p, k) ==> SentConfig(DeliverAll(p, c, tags).0, k)
    ensures forall i :: 0 <= i < |tags| ==> SentConfig(DeliverAll(p, c, tags).0, tags[i].0)
    ensures forall k :: Wants(DeliverAll(p, c, tags).0, k) <==> Wants(p, k)
    decreases |tags|
  {
    if tags != [] {
      var kind := tags[0].0;
      var c' := CacheTag(c, kind, tags[0].1);
      var step := Deliver(p, Cached(c', kind), kind, tags[0].1);
      DeliverAllBounds(step.0, c', tags[1..]);
      var r := DeliverAll(p, c, tags);
      assert WantedCount(step.0, tags[1..]) == WantedCount(p, tags[1..]) by {
        WantedCountDependsOnFlags(step.0, p, tags[1..]);
      }
      if !SentConfig(p, kind) {
        assert Unsent(step.0) + 1 == Unsent(p);
      }
      forall i | 0 <= i < |tags| ensures SentConfig(r.0, tags[i].0) {
        if i > 0 {
          assert tags[i] == tags[1..][i - 1];
        }
      }
    }
  }

  /** Independent reference for what a player receives over a run relayed from a
      publisher whose cache was `c` when the run began, with `seen` the kinds that have
      already occurred: each tag in order, each preceded by the publisher's
      configuration tag of that kind when this is the first tag of its kind the player
      meets and the player has not been sent that kind's configuration before. The
      configuration tag is the cached one, or, with nothing cached, the tag itself. */
  function Expected(p: PlayerState, c: Cache, seen: set<TagKind>, tags: seq<(TagKind, TagBuffer)>)
    : seq<Message>
    decreases |tags|
  {
    if tags == [] then []
    else
      var kind := tags[0].0;
      var tag := tags[0].1;
      var first := !SentConfig(p, kind) && kind !in seen;
      (if first then SendTag(p, kind, Cached(c, kind).GetOr(tag)) else [])
      + SendTag(p, kind, tag)
      + Expected(p, c, seen + {kind}, tags[1..])
  }

  /** A player's messages over any run are exactly Expected: every tag it takes arrives,
      in the publisher's order, and the only extra messages are the configuration tags. */
  lemma DeliverAllContents(p: PlayerState, c: Cache, tags: seq<(TagKind, TagBuffer)>)
    ensures DeliverAll(p, c, tags).1 == Expected(p, c, {}, tags)
  {
    DeliverAllFrom(p, c, p, c, {}, tags);
  }

  /** DeliverAllContents, from a point inside the run: the player `q` and cache `cc`
      are what the start state `p` and `c` have become after the kinds in `seen`. */
  lemma {:induction false} DeliverAllFrom(p: PlayerState, c: Cache, q: PlayerState, cc: Cache,
                                          seen: set<TagKind>, tags: seq<(TagKind, TagBuffer)>)
    requires forall k :: Wants(q, k) <==> Wants(p, k)
    requires q.streamId == p.streamId
    requires forall k :: SentConfig(q, k) <==> SentConfig(p, k) || k in seen
    requires forall k :: k !in seen ==> Cached(cc, k) == Cached(c, k)
    ensures DeliverAll(q, cc, tags).1 == Expected(p, c, seen, tags)
    decreases |tags|
  {
    if tags != [] {
      var kind := tags[0].0;
      var tag := tags[0].1;
      var cc' := CacheTag(cc, kind, tag);
      var step := Deliver(q, Cached(cc', kind), kind, tag);
      assert SendTag(q, kind, tag) == SendTag(p, kind, tag);
      if !SentConfig(q, kind) {
        assert Cached(cc', kind) == Some(Cached(c, kind).GetOr(tag));
        assert SendTag(q, kind, Cached(c, kind).GetOr(tag)) == SendTag(p, kind, Cached(c, kind).GetOr(tag));
      }
      DeliverAllFrom(p, c, step.0, cc', seen + {kind}, tags[1..]);
    }
  }

  /** Only the receive flags decide which tags of a run a player takes. */
  lemma {:induction false} WantedCountDependsOnFlags(p: PlayerState, q: PlayerState,
                                                   tags: seq<(TagKind, TagBuffer)>)
    requires forall k :: Wants(p, k) <==> Wants(q, k)
    ensures WantedCount(p, tags) == WantedCount(q, tags)
    decreases |tags|
  {
    if tags != [] {
      WantedCountDependsOnFlags(p, q, tags[1..]);
    }
  }

  /** A player that is already listening when the publisher's very first audio tag
      arrives receives that tag twice: once as the cached configuration and once as
      the live tag. */
  lemma FirstTagDeliveredTwice(streamId: nat, tag: TagBuffer)
    ensures DeliverAll(FreshPlayer(streamId), Cache(None, None, None), [(Audio, tag)]).1
            == [TagMessage(Audio, tag, streamId), TagMessage(Audio, tag, streamId)]
  {
  }
}
