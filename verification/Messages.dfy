/** The NDMP messages of `ndmp.x` that the server decodes and encodes, the reply header of `set_header`, dispatch by
    message number, and what a client makes of a reply. */
module Messages {
  import opened Common
  import opened Xdr
  import opened RecordMark

  // ------------------------------------------------------------------------------------------------ the header

  const ENUM := Num(Int)
  const U_LONG := Num(ULong)

  // struct ndmp_header
  const HEADER := Struct([U_LONG, U_LONG, ENUM, ENUM, U_LONG, ENUM])
  const HEADER_SIZE := 24

  const MESSAGE_REQUEST := 0
  const MESSAGE_REPLY := 1

  datatype Header = Header(
    sequence: int, timeStamp: int, messageType: int, message: int, replySequence: int, error: int)
  {
    predicate Fits() {
      && ULong.Holds(sequence) && ULong.Holds(timeStamp) && Int.Holds(messageType) && Int.Holds(message)
      && ULong.Holds(replySequence) && Int.Holds(error)
    }

    function ToValue(): Value {
      Items([N(sequence), N(timeStamp), N(messageType), N(message), N(replySequence), N(error)])
    }
  }

  lemma HeaderTyped(h: Header)
    requires h.Fits()
    ensures HasType(HEADER, h.ToValue()) && Sizeof(HEADER, h.ToValue()) == HEADER_SIZE
  {
    var vs := h.ToValue().items;
    var fs := HEADER.fields;
    FieldsTyped(fs, vs);
    SizeofWords(fs, vs);
  }

  // A structure of words takes four bytes a field.
  lemma {:induction false} SizeofWords(fs: seq<Schema>, vs: seq<Value>)
    requires HasFields(fs, vs) && forall i :: 0 <= i < |fs| ==> fs[i].Num?
    ensures SizeofFields(fs, vs) == 4 * |fs|
  {
    if fs != [] { SizeofWords(fs[1..], vs[1..]); }
  }

  lemma {:induction false} FieldsTyped(fs: seq<Schema>, vs: seq<Value>)
    requires |fs| == |vs| && forall i :: 0 <= i < |fs| ==> HasType(fs[i], vs[i])
    ensures HasFields(fs, vs)
  {
    if fs != [] { FieldsTyped(fs[1..], vs[1..]); }
  }

  lemma {:induction false} TypedFields(fs: seq<Schema>, vs: seq<Value>)
    requires HasFields(fs, vs)
    ensures |fs| == |vs| && forall i :: 0 <= i < |fs| ==> HasType(fs[i], vs[i])
  {
    if fs != [] { TypedFields(fs[1..], vs[1..]); }
  }

  lemma {:induction false} ItemsTyped(e: Schema, vs: seq<Value>)
    requires forall i :: 0 <= i < |vs| ==> HasType(e, vs[i])
    ensures HasItems(e, vs)
  {
    if vs != [] { ItemsTyped(e, vs[1..]); }
  }

  lemma FirstTyped(e: Schema, vs: seq<Value>)
    requires HasItems(e, vs) && vs != []
    ensures HasType(e, vs[0])
  {
  }

  function EncodeHeader(h: Header): (b: seq<byte>)
    requires h.Fits()
    ensures |b| == HEADER_SIZE
  {
    HeaderTyped(h);
    Encode(HEADER, h.ToValue())
  }

  function DecodeHeader(b: seq<byte>): Parsed<Header> {
    match Decode(HEADER, b)
    case Fail => Fail
    case Got(v, rest) =>
      DecodeSound(HEADER, b);
      TypedFields(HEADER.fields, v.items);
      var f := v.items;
      Got(Header(f[0].n, f[1].n, f[2].n, f[3].n, f[4].n, f[5].n), rest)
  }

  lemma HeaderRoundTrip(h: Header, tail: seq<byte>)
    requires h.Fits()
    ensures DecodeHeader(EncodeHeader(h) + tail) == Got(h, tail)
  {
    HeaderTyped(h);
    RoundTrip(HEADER, h.ToValue(), tail);
  }

  // A decoded header fits its fields, and 24 bytes are enough to decode one.
  lemma DecodedHeaderFits(b: seq<byte>)
    ensures DecodeHeader(b).Got? ==>
              DecodeHeader(b).value.Fits() && |b| >= HEADER_SIZE && DecodeHeader(b).rest == b[HEADER_SIZE..]
    ensures |b| >= HEADER_SIZE ==> DecodeHeader(b).Got?
  {
    DecodeSound(HEADER, b);
    if Decode(HEADER, b).Got? {
      var vs := Decode(HEADER, b).value.items;
      TypedFields(HEADER.fields, vs);
      SizeofWords(HEADER.fields, vs);
    }
    if |b| >= HEADER_SIZE { DecodeWords(HEADER.fields, b); }
  }

  lemma {:induction false} DecodeWords(fs: seq<Schema>, b: seq<byte>)
    requires |b| >= 4 * |fs| && forall i :: 0 <= i < |fs| ==> fs[i].Num?
    ensures DecodeFields(fs, b).Got?
  {
    if fs != [] { DecodeWords(fs[1..], b[4..]); }
  }

  // ------------------------------------------------------------------------------------------------ the bodies

  const PVAL := Struct([Text, Text])
  const U_QUAD := Struct([U_LONG, U_LONG])
  const ADDR := Union(Case(0, Void, Case(1, Struct([U_LONG, Num(UShort)]), Case(2, Struct([U_LONG]),
                      Case(3, Struct([Text]), NoArm)))))
  const AUTH_ATTR := Union(Case(0, Void, Case(1, Void, Case(2, Opaque(64), NoArm))))
  const BUTYPE := Struct([Text, Array(PVAL), U_LONG])
  const FS_INFO := Struct([U_LONG, Text, Text, Text, U_QUAD, U_QUAD, U_QUAD, U_QUAD, U_QUAD, Array(PVAL), Text])
  const DEVICE := Struct([Text, Array(Struct([Text, U_LONG, Array(PVAL)]))])
  const NAME := Struct([Text, Text, Text, Text, U_QUAD, U_QUAD])

  const ERROR_REPLY := Struct([ENUM])
  const HOST_INFO := Struct([ENUM, Text, Text, Text, Text])
  const CONNECTION_TYPES := Struct([ENUM, Array(ENUM)])
  const AUTH_REPLY := Struct([ENUM, AUTH_ATTR])
  const BUTYPE_INFO := Struct([ENUM, Array(BUTYPE)])
  const FS_REPLY := Struct([ENUM, Array(FS_INFO)])
  const DEVICE_INFO := Struct([ENUM, Array(DEVICE)])
  const SERVER_INFO := Struct([ENUM, Text, Text, Text, Array(ENUM)])
  const ENV_REPLY := Struct([ENUM, Array(PVAL)])
  const LISTEN_REPLY := Struct([ENUM, ADDR])
  const NOTIFY_CONNECTED := Struct([ENUM, Num(UShort), Text])

  const NOTIFY_MESSAGE := 0x502

  // The message handlers; `Unsupported` is the default arm of the switch.
  datatype Handler =
    | AcceptNotify | ConnectOpen | ConnectClose | HostInfo | ConnectionType | AuthAttr | ButypeInfo | FsInfo
    | TapeInfo | ScsiInfo | ServerInfo | DataGetState | DataStartBackup | DataStartRecover | DataAbort | DataGetEnv
    | DataStop | DataListen | DataConnect | Unsupported

  function Dispatch(message: int): Handler {
    match message
    case 0xf001 => AcceptNotify
    case 0x900 => ConnectOpen
    case 0x902 => ConnectClose
    case 0x100 => HostInfo
    case 0x102 => ConnectionType
    case 0x103 => AuthAttr
    case 0x104 => ButypeInfo
    case 0x105 => FsInfo
    case 0x106 => TapeInfo
    case 0x107 => ScsiInfo
    case 0x108 => ServerInfo
    case 0x400 => DataGetState
    case 0x401 => DataStartBackup
    case 0x402 => DataStartRecover
    case 0x403 => DataAbort
    case 0x404 => DataGetEnv
    case 0x407 => DataStop
    case 0x409 => DataListen
    case 0x40A => DataConnect
    case _ => Unsupported
  }

  // The body that follows the header of a message sent without error, by message number.
  function BodySchema(message: int): Option<Schema> {
    if message == NOTIFY_MESSAGE then Some(NOTIFY_CONNECTED) else
    match Dispatch(message)
    case HostInfo => Some(HOST_INFO)
    case ConnectionType => Some(CONNECTION_TYPES)
    case AuthAttr => Some(AUTH_REPLY)
    case ButypeInfo => Some(BUTYPE_INFO)
    case FsInfo => Some(FS_REPLY)
    case TapeInfo => Some(DEVICE_INFO)
    case ScsiInfo => Some(DEVICE_INFO)
    case ServerInfo => Some(SERVER_INFO)
    case DataGetEnv => Some(ENV_REPLY)
    case DataListen => Some(LISTEN_REPLY)
    case ConnectOpen => Some(ERROR_REPLY)
    case DataStartBackup => Some(ERROR_REPLY)
    case DataStartRecover => Some(ERROR_REPLY)
    case DataAbort => Some(ERROR_REPLY)
    case DataStop => Some(ERROR_REPLY)
    case DataConnect => Some(ERROR_REPLY)
    case _ => None
  }

  // The arguments of a request; messages without arguments read nothing.
  function ArgsSchema(message: int): Schema {
    match Dispatch(message)
    case ConnectOpen => Struct([Num(UShort)])
    case AuthAttr => Struct([ENUM])
    case DataStartBackup => Struct([Text, Array(PVAL)])
    case DataStartRecover => Struct([Array(PVAL), Array(NAME), Text])
    case DataListen => Struct([ENUM])
    case DataConnect => Struct([ADDR])
    case _ => Void
  }

  // ---------------------------------------------------------------------------------- a reply and its reception

  // What a handler decides: the error, and the body that is sent when there is none.
  datatype Outcome = Outcome(error: int, body: Value)

  predicate Sendable(message: int, out: Outcome) {
    && Int.Holds(out.error)
    && (out.error == 0 ==> BodySchema(message).Some? && HasType(BodySchema(message).value, out.body))
  }

  // set_header
  function ReplyHeader(request: Header, sequence: int, time: int, error: int): Header {
    Header(sequence, time, MESSAGE_REPLY, request.message, request.sequence, error)
  }

  // A message as a handler leaves it: the header, and the body only without error.
  function MessageBytes(h: Header, body: Value): (b: seq<byte>)
    requires h.Fits() && Sendable(h.message, Outcome(h.error, body))
    ensures |b| == HEADER_SIZE + if h.error == 0 then Sizeof(BodySchema(h.message).value, body) else 0
    ensures |b| % 4 == 0
  {
    EncodeHeader(h) + if h.error == 0 then Encode(BodySchema(h.message).value, body) else []
  }

  datatype Received = Received(header: Header, body: Option<Value>)

  // What a client reads: one record, its header, and a body exactly when the header shows no error.
  function ClientDecode(b: seq<byte>): Option<Received> {
    match ReadRecord([], b)
    case Fail => None
    case Got(record, after) =>
      match DecodeHeader(record)
      case Fail => None
      case Got(h, rest) =>
        if after != [] then None
        else if h.error != 0 then (if rest == [] then Some(Received(h, None)) else None)
        else match BodySchema(h.message)
          case None => None
          case Some(s) =>
            match Decode(s, rest)
            case Fail => None
            case Got(v, end) => if end == [] then Some(Received(h, Some(v))) else None
  }

  // A framed message is read back as its header, with its body exactly on success.
  lemma ClientReads(h: Header, body: Value)
    requires h.Fits() && Sendable(h.message, Outcome(h.error, body)) && |MessageBytes(h, body)| < TWO31
    ensures ClientDecode(Frame(MessageBytes(h, body))) ==
            Some(Received(h, if h.error == 0 then Some(body) else None))
  {
    var m := MessageBytes(h, body);
    ReadFrame(m, []);
    assert Frame(m) + [] == Frame(m);
    if h.error == 0 {
      var b := Encode(BodySchema(h.message).value, body);
      HeaderRoundTrip(h, b);
      RoundTrip(BodySchema(h.message).value, body, []);
      assert b + [] == b;
    } else {
      HeaderRoundTrip(h, []);
    }
  }

  // A framed reply.
  function ReplyBytes(request: Header, sequence: int, time: int, out: Outcome): (b: seq<byte>)
    requires request.Fits() && ULong.Holds(sequence) && ULong.Holds(time) && Sendable(request.message, out)
    requires |MessageBytes(ReplyHeader(request, sequence, time, out.error), out.body)| < TWO31
    ensures |b| == 4 + |MessageBytes(ReplyHeader(request, sequence, time, out.error), out.body)|
  {
    Frame(MessageBytes(ReplyHeader(request, sequence, time, out.error), out.body))
  }

  // End to end: whatever follows the header of a framed request, the server decodes that header, and the client
  // reads from the framed reply a REPLY with the request's message number, its sequence as reply_sequence and the
  // handler's error, with the handler's body exactly on success.
  lemma RequestToReply(mark: seq<byte>, request: Header, args: seq<byte>, sequence: int, time: int, out: Outcome)
    requires |mark| == 4 && request.Fits() && ULong.Holds(sequence) && ULong.Holds(time)
    requires Sendable(request.message, out)
    requires |MessageBytes(ReplyHeader(request, sequence, time, out.error), out.body)| < TWO31
    ensures DecodeHeader((mark + EncodeHeader(request) + args)[4..]) == Got(request, args)
    ensures ClientDecode(ReplyBytes(request, sequence, time, out)) ==
            Some(Received(Header(sequence, time, MESSAGE_REPLY, request.message, request.sequence, out.error),
                          if out.error == 0 then Some(out.body) else None))
  {
    assert (mark + EncodeHeader(request) + args)[4..] == EncodeHeader(request) + args;
    HeaderRoundTrip(request, args);
    ClientReads(ReplyHeader(request, sequence, time, out.error), out.body);
  }

  // ------------------------------------------------------------------------------------------- the greeting

  const GREETING := Items([N(0), N(3), Octets([])])

  function GreetingHeader(sequence: int, time: int): Header {
    Header(sequence, time, MESSAGE_REQUEST, NOTIFY_MESSAGE, 0, 0)
  }

  lemma GreetingTyped()
    ensures Sendable(NOTIFY_MESSAGE, Outcome(0, GREETING)) && Sizeof(NOTIFY_CONNECTED, GREETING) == 12
  {
    FieldsCons(Text, Octets([]), [], []);
    FieldsCons(Num(UShort), N(3), [Text], [Octets([])]);
    FieldsCons(ENUM, N(0), [Num(UShort), Text], [N(3), Octets([])]);
    assert [Text] + [] == [Text] && [Num(UShort)] + [Text] == [Num(UShort), Text];
    assert [Octets([])] + [] == [Octets([])] && [N(3)] + [Octets([])] == [N(3), Octets([])];
    assert [ENUM] + [Num(UShort), Text] == NOTIFY_CONNECTED.fields;
    assert [N(0)] + [N(3), Octets([])] == GREETING.items;
  }

  function GreetingBytes(sequence: int, time: int): (b: seq<byte>)
    requires ULong.Holds(sequence) && ULong.Holds(time)
    ensures |b| == 40
  {
    GreetingTyped();
    Frame(MessageBytes(GreetingHeader(sequence, time), GREETING))
  }

  lemma GreetingReads(sequence: int, time: int)
    requires ULong.Holds(sequence) && ULong.Holds(time)
    ensures ClientDecode(GreetingBytes(sequence, time)) ==
            Some(Received(GreetingHeader(sequence, time), Some(GREETING)))
  {
    GreetingTyped();
    ClientReads(GreetingHeader(sequence, time), GREETING);
  }
}
