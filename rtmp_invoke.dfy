/** The AMF0 command dispatcher of src/protocol/rtmp_invoke_handler.cpp. A command
    message starts with the command name and the transaction id; a notification
    (transaction -1) is ignored; otherwise the name selects an entry of a fixed table
    and that entry's parser reads its positional arguments, keeping a default for every
    argument the message does not supply, and passes them with a success flag to the
    session's callback. The AMF0 reader (amf_read_items) is a parameter. */
module RtmpInvoke {
  import opened Wrappers
  import opened RtmpInternal
  import opened RtmpConnDefs

  /** errno EINVAL: the dispatcher answers -EINVAL to an undecodable command header. */
  const EINVAL: int := 22

  /** Capacity of the dispatcher's command-name buffer. */
  const COMMAND_NAME_SIZE: nat := 64

  datatype AmfType = AmfNumber | AmfBoolean | AmfString | AmfObject

  /** A decoded AMF0 value; an object carries the values of the properties asked for. */
  datatype AmfValue =
    | Number(n: real)
    | Boolean(b: bool)
    | Str(s: string)
    | Object(properties: seq<Option<AmfValue>>)

  /** One entry of an amf_object_item_t array: the expected type, the name, and for an
      object the properties to extract from it. */
  datatype Item = Item(kind: AmfType, name: string, properties: seq<Item>)

  /** What amf_read_items reports: whether decoding succeeded, the value it stored for
      each item (None where it stored nothing) and the bytes after what it consumed. */
  datatype ReadResult = ReadResult(ok: bool, values: seq<Option<AmfValue>>, rest: seq<byte>)

  /** amf_read_items, whose body is not part of this model. */
  type AmfReader = (seq<byte>, seq<Item>) -> ReadResult

  /** The number stored for item i, or the parser's default. */
  function NumberAt(values: seq<Option<AmfValue>>, i: nat, default: real): (x: real)
    ensures i < |values| && values[i].Some? && values[i].value.Number? ==> x == values[i].value.n
    ensures !(i < |values| && values[i].Some? && values[i].value.Number?) ==> x == default
  {
    if i < |values| && values[i].Some? && values[i].value.Number? then values[i].value.n else default
  }

  /** The byte a boolean item stores (1 or 0), or the parser's default. */
  function BooleanAt(values: seq<Option<AmfValue>>, i: nat, default: nat): (x: nat)
    ensures i < |values| && values[i].Some? && values[i].value.Boolean? ==>
              x == (if values[i].value.b then 1 else 0)
    ensures !(i < |values| && values[i].Some? && values[i].value.Boolean?) ==> x == default
  {
    if i < |values| && values[i].Some? && values[i].value.Boolean? then
      (if values[i].value.b then 1 else 0)
    else default
  }

  /** The string stored for item i; a zero-initialised buffer reads as "". */
  function StringAt(values: seq<Option<AmfValue>>, i: nat): (s: string)
    ensures i < |values| && values[i].Some? && values[i].value.Str? ==> s == values[i].value.s
    ensures !(i < |values| && values[i].Some? && values[i].value.Str?) ==> s == ""
  {
    if i < |values| && values[i].Some? && values[i].value.Str? then values[i].value.s else ""
  }

  /** The properties stored for the object item i (none if it was not filled). */
  function PropertiesAt(values: seq<Option<AmfValue>>, i: nat): seq<Option<AmfValue>>
  {
    if i < |values| && values[i].Some? && values[i].value.Object? then values[i].value.properties
    else []
  }

  /** The success flag the parsers pass on: 0 if amf_read_items succeeded, -1 if not. */
  function Status(res: ReadResult): (r: int)
    ensures r == 0 <==> res.ok
    ensures r == 0 || r == -1
  {
    if res.ok then 0 else -1
  }

  /** Item lists of the command header and of each parser. */
  function HeaderItems(): (items: seq<Item>)
    ensures |items| == 2 && items[0].kind == AmfString && items[1].kind == AmfNumber
  {
    [Item(AmfString, "command", []), Item(AmfNumber, "transactionId", [])]
  }

  /** The command object every parser but connect skips. */
  const COMMAND_OBJECT: Item := Item(AmfObject, "command", [])

  function ConnectItems(): (items: seq<Item>)
    ensures |items| == 1 && items[0].kind == AmfObject && |items[0].properties| == 8
  {
    [Item(AmfObject, "command",
          [Item(AmfString, "app", []), Item(AmfString, "flashver", []),
           Item(AmfString, "tcUrl", []), Item(AmfBoolean, "fpad", []),
           Item(AmfNumber, "audioCodecs", []), Item(AmfNumber, "videoCodecs", []),
           Item(AmfNumber, "videoFunction", []), Item(AmfNumber, "objectEncoding", [])])]
  }

  function PlayItems(): seq<Item>
  {
    [COMMAND_OBJECT, Item(AmfString, "stream", []), Item(AmfNumber, "start", []),
     Item(AmfNumber, "duration", []), Item(AmfBoolean, "reset", [])]
  }

  function PublishItems(): seq<Item>
  {
    [COMMAND_OBJECT, Item(AmfString, "name", []), Item(AmfString, "type", [])]
  }

  function PauseItems(): seq<Item>
  {
    [COMMAND_OBJECT, Item(AmfBoolean, "pause", []), Item(AmfNumber, "milliSeconds", [])]
  }

  /** Items of a parser that reads the command object and one argument. */
  function OneArgItems(kind: AmfType, name: string): (items: seq<Item>)
    ensures |items| == 2 && items[0] == COMMAND_OBJECT && items[1].kind == kind
  {
    [COMMAND_OBJECT, Item(kind, name, [])]
  }

  /** The commands of the handler table. The first three are answers a client receives;
      their handlers live in the client side of the library. */
  datatype CommandKind =
    | ResultCmd | ErrorCmd | OnStatusCmd
    | ConnectCmd | CreateStreamCmd | PlayCmd | DeleteStreamCmd | ReceiveAudioCmd
    | ReceiveVideoCmd | PublishCmd | SeekCmd | PauseCmd | GetStreamLengthCmd

  predicate IsClientCommand(k: CommandKind)
  {
    k == ResultCmd || k == ErrorCmd || k == OnStatusCmd
  }

  /** s_command_handler, in table order. */
  const COMMAND_TABLE: seq<(string, CommandKind)> := [
    ("_result", ResultCmd), ("_error", ErrorCmd), ("onStatus", OnStatusCmd),
    ("connect", ConnectCmd), ("createStream", CreateStreamCmd), ("play", PlayCmd),
    ("deleteStream", DeleteStreamCmd), ("receiveAudio", ReceiveAudioCmd),
    ("receiveVideo", ReceiveVideoCmd), ("publish", PublishCmd), ("seek", SeekCmd),
    ("pause", PauseCmd), ("getStreamLength", GetStreamLengthCmd)
  ]

  /** The linear search of rtmp_invoke_handler from entry i on: the first entry whose
      name equals `name` exactly. */
  function FindFrom(name: string, i: nat): (k: Option<CommandKind>)
    requires i <= |COMMAND_TABLE|
    ensures k.Some? <==> exists j :: i <= j < |COMMAND_TABLE| && COMMAND_TABLE[j].0 == name
    ensures k.Some? ==> exists j :: i <= j < |COMMAND_TABLE| && COMMAND_TABLE[j] == (name, k.value)
    decreases |COMMAND_TABLE| - i
  {
    if i == |COMMAND_TABLE| then None
    else if COMMAND_TABLE[i].0 == name then Some(COMMAND_TABLE[i].1)
    else FindFrom(name, i + 1)
  }

  function Lookup(name: string): (k: Option<CommandKind>)
    ensures k.Some? <==> exists j :: 0 <= j < |COMMAND_TABLE| && COMMAND_TABLE[j].0 == name
    ensures k.Some? ==> exists j :: 0 <= j < |COMMAND_TABLE| && COMMAND_TABLE[j] == (name, k.value)
  {
    FindFrom(name, 0)
  }

  /** The table name of a command. */
  function NameOf(k: CommandKind): (name: string)
    ensures exists j :: 0 <= j < |COMMAND_TABLE| && COMMAND_TABLE[j] == (name, k)
  {
    match k
    case ResultCmd => assert COMMAND_TABLE[0] == ("_result", k); "_result"
    case ErrorCmd => assert COMMAND_TABLE[1] == ("_error", k); "_error"
    case OnStatusCmd => assert COMMAND_TABLE[2] == ("onStatus", k); "onStatus"
    case ConnectCmd => assert COMMAND_TABLE[3] == ("connect", k); "connect"
    case CreateStreamCmd => assert COMMAND_TABLE[4] == ("createStream", k); "createStream"
    case PlayCmd => assert COMMAND_TABLE[5] == ("play", k); "play"
    case DeleteStreamCmd => assert COMMAND_TABLE[6] == ("deleteStream", k); "deleteStream"
    case ReceiveAudioCmd => assert COMMAND_TABLE[7] == ("receiveAudio", k); "receiveAudio"
    case ReceiveVideoCmd => assert COMMAND_TABLE[8] == ("receiveVideo", k); "receiveVideo"
    case PublishCmd => assert COMMAND_TABLE[9] == ("publish", k); "publish"
    case SeekCmd => assert COMMAND_TABLE[10] == ("seek", k); "seek"
    case PauseCmd => assert COMMAND_TABLE[11] == ("pause", k); "pause"
    case GetStreamLengthCmd => assert COMMAND_TABLE[12] == ("getStreamLength", k); "getStreamLength"
  }

  /** Table names are distinct, so a name selects one command. */
  lemma TableNamesDistinct()
    ensures forall i, j :: 0 <= i < j < |COMMAND_TABLE| ==> COMMAND_TABLE[i].0 != COMMAND_TABLE[j].0
  {
  }

  /** Lookup and NameOf are inverse: every command is found under its own name. */
  lemma LookupNameOf(k: CommandKind)
    ensures Lookup(NameOf(k)) == Some(k)
  {
    TableNamesDistinct();
  }

  /** A name outside the table finds nothing; a match is case-sensitive and exact. */
  lemma LookupExact()
    ensures Lookup("Connect") == None && Lookup("connect ") == None && Lookup("") == None
    ensures Lookup("FCPublish") == None
  {
  }

  /** The arguments a server-side parser passes to its callback, with its flag r. */
  datatype Invocation =
    | OnConnect(r: int, transaction: real, connect: ConnectInfo)
    | OnCreateStream(r: int, transaction: real)
    | OnPlay(r: int, transaction: real, streamName: string, start: real, duration: real, reset: nat)
    | OnDeleteStream(r: int, transaction: real, streamId: real)
    | OnReceiveAudio(r: int, transaction: real, audio: nat)
    | OnReceiveVideo(r: int, transaction: real, video: nat)
    | OnPublish(r: int, transaction: real, streamName: string, streamType: string)
    | OnSeek(r: int, transaction: real, milliSeconds: real)
    | OnPause(r: int, transaction: real, pause: nat, milliSeconds: real)
    | OnGetStreamLength(r: int, transaction: real, streamName: string)

  /** The command an invocation answers. */
  function KindOf(inv: Invocation): (k: CommandKind)
    ensures !IsClientCommand(k)
  {
    match inv
    case OnConnect(_, _, _) => ConnectCmd
    case OnCreateStream(_, _) => CreateStreamCmd
    case OnPlay(_, _, _, _, _, _) => PlayCmd
    case OnDeleteStream(_, _, _) => DeleteStreamCmd
    case OnReceiveAudio(_, _, _) => ReceiveAudioCmd
    case OnReceiveVideo(_, _, _) => ReceiveVideoCmd
    case OnPublish(_, _, _, _) => PublishCmd
    case OnSeek(_, _, _) => SeekCmd
    case OnPause(_, _, _, _) => PauseCmd
    case OnGetStreamLength(_, _, _) => GetStreamLengthCmd
  }

  /** rtmp_command_onconnect: the eight properties of the command object; the record is
      zeroed first and its encoding preset to AMF0. */
  function ParseConnect(reader: AmfReader, transaction: real, body: seq<byte>): (inv: Invocation)
    ensures inv.OnConnect? && inv.transaction == transaction
    ensures inv.r == Status(reader(body, ConnectItems()))
    ensures var ps := PropertiesAt(reader(body, ConnectItems()).values, 0);
      inv.connect == ConnectInfo(StringAt(ps, 0), StringAt(ps, 1), StringAt(ps, 2), BooleanAt(ps, 3, 0),
                                 NumberAt(ps, 4, 0.0), NumberAt(ps, 5, 0.0), NumberAt(ps, 6, 0.0),
                                 NumberAt(ps, 7, RTMP_ENCODING_AMF_0))
  {
    var res := reader(body, ConnectItems());
    var ps := PropertiesAt(res.values, 0);
    OnConnect(Status(res), transaction,
              ConnectInfo(StringAt(ps, 0), StringAt(ps, 1), StringAt(ps, 2), BooleanAt(ps, 3, 0),
                          NumberAt(ps, 4, 0.0), NumberAt(ps, 5, 0.0), NumberAt(ps, 6, 0.0),
                          NumberAt(ps, 7, RTMP_ENCODING_AMF_0)))
  }

  /** The parser table entry of a server-side command. */
  function Parse(k: CommandKind, reader: AmfReader, transaction: real, body: seq<byte>)
    : (inv: Invocation)
    requires !IsClientCommand(k)
    ensures KindOf(inv) == k && inv.transaction == transaction
  {
    match k
    case ConnectCmd => ParseConnect(reader, transaction, body)
    case CreateStreamCmd =>
      OnCreateStream(Status(reader(body, [COMMAND_OBJECT])), transaction)
    case PlayCmd =>
      var res := reader(body, PlayItems());
      OnPlay(Status(res), transaction, StringAt(res.values, 1), NumberAt(res.values, 2, -2.0),
             NumberAt(res.values, 3, -1.0), BooleanAt(res.values, 4, 0))
    case DeleteStreamCmd =>
      var res := reader(body, OneArgItems(AmfNumber, "streamId"));
      OnDeleteStream(Status(res), transaction, NumberAt(res.values, 1, 0.0))
    case ReceiveAudioCmd =>
      var res := reader(body, OneArgItems(AmfBoolean, "receiveAudio"));
      OnReceiveAudio(Status(res), transaction, BooleanAt(res.values, 1, 1))
    case ReceiveVideoCmd =>
      var res := reader(body, OneArgItems(AmfBoolean, "receiveVideo"));
      OnReceiveVideo(Status(res), transaction, BooleanAt(res.values, 1, 1))
    case PublishCmd =>
      var res := reader(body, PublishItems());
      OnPublish(Status(res), transaction, StringAt(res.values, 1), StringAt(res.values, 2))
    case SeekCmd =>
      var res := reader(body, OneArgItems(AmfNumber, "milliSeconds"));
      OnSeek(Status(res), transaction, NumberAt(res.values, 1, 0.0))
    case PauseCmd =>
      var res := reader(body, PauseItems());
      OnPause(Status(res), transaction, BooleanAt(res.values, 1, 0), NumberAt(res.values, 2, 0.0))
    case GetStreamLengthCmd =>
      var res := reader(body, OneArgItems(AmfString, "playpath"));
      OnGetStreamLength(Status(res), transaction, StringAt(res.values, 1))
  }

  /** The flag every parser passes is 0 exactly when the reader succeeded on that
      parser's items, and -1 otherwise; the callback is called either way. */
  lemma ParseFlag(k: CommandKind, reader: AmfReader, transaction: real, body: seq<byte>)
    requires !IsClientCommand(k)
    ensures Parse(k, reader, transaction, body).r == 0 || Parse(k, reader, transaction, body).r == -1
    ensures Parse(k, reader, transaction, body).r == 0 <==>
              reader(body, match k
                           case ConnectCmd => ConnectItems()
                           case CreateStreamCmd => [COMMAND_OBJECT]
                           case PlayCmd => PlayItems()
                           case DeleteStreamCmd => OneArgItems(AmfNumber, "streamId")
                           case ReceiveAudioCmd => OneArgItems(AmfBoolean, "receiveAudio")
                           case ReceiveVideoCmd => OneArgItems(AmfBoolean, "receiveVideo")
                           case PublishCmd => PublishItems()
                           case SeekCmd => OneArgItems(AmfNumber, "milliSeconds")
                           case PauseCmd => PauseItems()
                           case _ => OneArgItems(AmfString, "playpath")).ok
  {
  }

  /** A reader that supplies nothing leaves every argument at its default: play starts
      at -2 (live or recorded) with duration -1 and no reset, the receive flags are 1,
      connect asks for AMF0, deleteStream names stream 0, seek and pause are at 0 ms,
      pause is 0 and every string is empty. */
  lemma Defaults(reader: AmfReader, transaction: real, body: seq<byte>)
    requires forall items :: reader(body, items).values == []
    ensures Parse(PlayCmd, reader, transaction, body)
            == OnPlay(Status(reader(body, PlayItems())), transaction, "", -2.0, -1.0, 0)
    ensures Parse(ReceiveAudioCmd, reader, transaction, body).audio == 1
    ensures Parse(ReceiveVideoCmd, reader, transaction, body).video == 1
    ensures Parse(ConnectCmd, reader, transaction, body).connect == EmptyConnectInfo()
    ensures Parse(DeleteStreamCmd, reader, transaction, body).streamId == 0.0
    ensures Parse(SeekCmd, reader, transaction, body).milliSeconds == 0.0
    ensures Parse(PauseCmd, reader, transaction, body).milliSeconds == 0.0
    ensures Parse(PauseCmd, reader, transaction, body).pause == 0
    ensures Parse(PublishCmd, reader, transaction, body).streamName == ""
    ensures Parse(PublishCmd, reader, transaction, body).streamType == ""
  {
    assert reader(body, ConnectItems()).values == [];
  }

  /** What rtmp_invoke_handler does with one command message. */
  datatype Outcome =
    | Invalid                                   // header undecodable: -EINVAL
    | Notification                              // transaction -1: 0, nothing called
    | UnknownCommand(name: string)              // no table entry: 0, nothing called
    | ClientCommand(kind: CommandKind, transaction: real, body: seq<byte>)
    | MissingCallback(inv: Invocation)          // the session set no callback: -1
    | Call(inv: Invocation)                     // the callback is called with inv

  /** Dispatch of a command message, given the reader and the set of server commands
      whose callback the session registered. */
  function Dispatch(reader: AmfReader, callbacks: set<CommandKind>, data: seq<byte>): (o: Outcome)
    ensures !reader(data, HeaderItems()).ok <==> o == Invalid
    ensures o == Notification <==>
              reader(data, HeaderItems()).ok && NumberAt(reader(data, HeaderItems()).values, 1, -1.0) == -1.0
    ensures o.Call? || o.MissingCallback? ==>
              var head := reader(data, HeaderItems());
              head.ok && o.inv.transaction == NumberAt(head.values, 1, -1.0) != -1.0 &&
              Lookup(StringAt(head.values, 0)) == Some(KindOf(o.inv)) &&
              o.inv == Parse(KindOf(o.inv), reader, o.inv.transaction, head.rest)
    ensures o.Call? ==> KindOf(o.inv) in callbacks
    ensures o.MissingCallback? ==> KindOf(o.inv) !in callbacks
    ensures o.UnknownCommand? ==> Lookup(o.name) == None
  {
    var head := reader(data, HeaderItems());
    if !head.ok then Invalid
    else
      var transaction := NumberAt(head.values, 1, -1.0);
      if transaction == -1.0 then Notification
      else
        var name := StringAt(head.values, 0);
        match Lookup(name)
        case None => UnknownCommand(name)
        case Some(k) =>
          if IsClientCommand(k) then ClientCommand(k, transaction, head.rest)
          else
            var inv := Parse(k, reader, transaction, head.rest);
            if k in callbacks then Call(inv) else MissingCallback(inv)
  }

  /** The value rtmp_invoke_handler returns, given what the called handler returned. */
  function ReturnCode(o: Outcome, handlerResult: int): (code: int)
    ensures o == Invalid ==> code == -EINVAL
    ensures o == Notification || o.UnknownCommand? ==> code == 0
    ensures o.MissingCallback? ==> code == -1
    ensures o.Call? || o.ClientCommand? ==> code == handlerResult
  {
    match o
    case Invalid => -EINVAL
    case Notification => 0
    case UnknownCommand(_) => 0
    case MissingCallback(_) => -1
    case Call(_) => handlerResult
    case ClientCommand(_, _, _) => handlerResult
  }

  /** The server callbacks a session sets in its constructor. */
  const SERVER_CALLBACKS: set<CommandKind> := {
    ConnectCmd, CreateStreamCmd, PlayCmd, DeleteStreamCmd, ReceiveAudioCmd,
    ReceiveVideoCmd, PublishCmd, SeekCmd, PauseCmd, GetStreamLengthCmd
  }

  /** A session's own dispatch never meets a missing callback: every decodable,
      non-notification message naming a server command calls that command's callback
      with the arguments its parser read from the rest of the message. */
  lemma SessionCallsEveryServerCommand(reader: AmfReader, data: seq<byte>, k: CommandKind)
    requires !IsClientCommand(k)
    requires reader(data, HeaderItems()).ok
    requires NumberAt(reader(data, HeaderItems()).values, 1, -1.0) != -1.0
    requires StringAt(reader(data, HeaderItems()).values, 0) == NameOf(k)
    ensures var head := reader(data, HeaderItems());
      Dispatch(reader, SERVER_CALLBACKS, data)
        == Call(Parse(k, reader, NumberAt(head.values, 1, -1.0), head.rest))
  {
    LookupNameOf(k);
  }
}
