/** One request from bytes to bytes: `xdr_decode_encode` strips the mark, decodes the header, dispatches, and frames
    what the handler leaves; here with the handlers' effect on the session, the environment and the volume file. */
module NdmpServer {
  import opened Common
  import opened Xdr
  import opened Messages
  import opened Replies
  import opened DataStates
  import opened DataService
  import opened TextTokens
  import VolumeFile
  import Volumes
  import Sessions

  // What the handlers ask of the operating system and the operator.  `unset` is what a request structure holds before
  // its arguments are decoded; the handlers do not check that decoding succeeds.
  datatype System = System(
    time: int, ip: string, op: Operator, junk: VolumeFile.Record,
    host: Option<(string, string, string)>, fs: Option<Value>, devices: seq<Value>, unset: Value)

  predicate SystemFits(sys: System, message: int) {
    && ULong.Holds(sys.time) && HasType(ArgsSchema(message), sys.unset)
    && (sys.host.Some? ==>
          |sys.host.value.0| < TWO32 && |sys.host.value.1| < TWO32 && |sys.host.value.2| < TWO32)
    && (sys.fs.Some? ==> HasType(FS_INFO, sys.fs.value))
    && |sys.devices| < TWO32 && HasItems(DEVICE, sys.devices)
    && AnswersFit(sys) && IsWord(sys.op.host, Space) && IsWord(sys.op.point, Space)
    && (Dispatch(message).DataStartBackup? ==> SmallUnset(sys.unset))
  }

  // What the operating system says about the host, the file system and the devices fits the reply buffer.
  predicate AnswersFit(sys: System)
    requires (sys.fs.Some? ==> HasType(FS_INFO, sys.fs.value)) && HasItems(DEVICE, sys.devices)
  {
    && (sys.host.Some? ==> |sys.host.value.0| + |sys.host.value.1| + |sys.host.value.2| <= MAX_MESSAGE_SIZE - 68)
    && (sys.fs.Some? ==> Sizeof(FS_INFO, sys.fs.value) <= MAX_MESSAGE_SIZE - 36)
    && SizeofItems(DEVICE, sys.devices) <= MAX_MESSAGE_SIZE - 36
  }

  // The environment of a START_BACKUP request before decoding: the source's 8 pairs of 64 bytes.
  predicate SmallUnset(unset: Value)
    requires HasType(Struct([Text, Array(PVAL)]), unset)
  {
    TypedFields([Text, Array(PVAL)], unset.items);
    var env := PvalsOf(unset.items[1]);
    |env| <= 8 && forall i :: 0 <= i < |env| ==> |env[i].name| < 64 && |env[i].value| < 64
  }

  function ArgsOf(message: int, rest: seq<byte>, unset: Value): (args: Value)
    requires HasType(ArgsSchema(message), unset)
    ensures HasType(ArgsSchema(message), args)
  {
    DecodeSound(ArgsSchema(message), rest);
    match Decode(ArgsSchema(message), rest) case Fail => unset case Got(v, _) => v
  }

  // The field of a decoded structure.
  function Arg(message: int, args: Value, k: nat): (v: Value)
    requires HasType(ArgsSchema(message), args) && ArgsSchema(message).Struct? && k < |ArgsSchema(message).fields|
    ensures HasType(ArgsSchema(message).fields[k], v)
  {
    TypedFields(ArgsSchema(message).fields, args.items);
    args.items[k]
  }

  // ------------------------------------------------------------------------------------- configuration replies

  function TapeDevice(): Value {
    Items([TextValue("HP MSL6000 Tape"),
           Items([Items([TextValue("/dev/tape0"), N(1), Items([PvalValue(Pval("TAPE_SIZE", "1GB"))])])])])
  }

  function ConfigOutcome(message: int, args: Value, sys: System): Outcome
    requires HasType(ArgsSchema(message), args)
  {
    var unsupported := Outcome(NOT_SUPPORTED_ERR, Unit);
    match Dispatch(message)
    case HostInfo =>
      if sys.host.None? then unsupported
      else Outcome(NO_ERR, Items([N(0), TextValue(sys.host.value.0), TextValue(sys.host.value.1),
                                  TextValue(sys.host.value.2), TextValue("1")]))
    case ConnectionType => Outcome(NO_ERR, Items([N(0), Items([N(0), N(1)])]))
    case AuthAttr =>
      if Arg(message, args, 0) != N(0) then unsupported else Outcome(NO_ERR, Items([N(0), Choice(0, Unit)]))
    case ButypeInfo => Outcome(NO_ERR, Items([N(0), Items(ButypeInfos())]))
    case FsInfo => if sys.fs.None? then unsupported else Outcome(NO_ERR, Items([N(0), Items([sys.fs.value])]))
    case TapeInfo => Outcome(NO_ERR, Items([N(0), Items([TapeDevice()])]))
    case ScsiInfo => if sys.devices == [] then unsupported else Outcome(NO_ERR, Items([N(0), Items(sys.devices)]))
    case ServerInfo =>
      Outcome(NO_ERR, Items([N(0), TextValue("Red Hat, Inc."), TextValue("NDMP Server"), TextValue("0.1"),
                             Items([N(0)])]))
    case _ => unsupported
  }

  lemma ListReply(e: Schema, vs: seq<Value>)
    requires |vs| < TWO32 && forall i :: 0 <= i < |vs| ==> HasType(e, vs[i])
    ensures HasType(Struct([ENUM, Array(e)]), Items([N(0), Items(vs)]))
  {
    ItemsTyped(e, vs);
    Struct2(ENUM, Array(e), N(0), Items(vs));
  }

  lemma HostTyped(a: string, b: string, c: string)
    requires |a| < TWO32 && |b| < TWO32 && |c| < TWO32
    ensures HasType(HOST_INFO, Items([N(0), TextValue(a), TextValue(b), TextValue(c), TextValue("1")]))
  {
    FieldsTyped(HOST_INFO.fields, [N(0), TextValue(a), TextValue(b), TextValue(c), TextValue("1")]);
  }

  lemma TextsTyped(message: int, args: Value, sys: System)
    requires HasType(ArgsSchema(message), args) && SystemFits(sys, message)
    requires Dispatch(message) in {HostInfo, ServerInfo} && ConfigOutcome(message, args, sys).error == NO_ERR
    ensures Sendable(message, ConfigOutcome(message, args, sys))
  {
    if Dispatch(message).HostInfo? {
      HostTyped(sys.host.value.0, sys.host.value.1, sys.host.value.2);
    } else {
      ServerFits();
    }
  }

  lemma PairsTyped(message: int, args: Value, sys: System)
    requires HasType(ArgsSchema(message), args) && SystemFits(sys, message)
    requires Dispatch(message) in {AuthAttr, ScsiInfo} && ConfigOutcome(message, args, sys).error == NO_ERR
    ensures Sendable(message, ConfigOutcome(message, args, sys))
  {
    if Dispatch(message).AuthAttr? {
      Struct2(ENUM, AUTH_ATTR, N(0), Choice(0, Unit));
    } else {
      Struct2(ENUM, Array(DEVICE), N(0), Items(sys.devices));
    }
  }

  lemma ListsTyped(message: int, args: Value, sys: System)
    requires HasType(ArgsSchema(message), args) && SystemFits(sys, message)
    requires Dispatch(message) in {ConnectionType, ButypeInfo, FsInfo, TapeInfo, Unsupported}
    requires ConfigOutcome(message, args, sys).error == NO_ERR
    ensures Sendable(message, ConfigOutcome(message, args, sys))
  {
    match Dispatch(message) {
      case ConnectionType => ListReply(ENUM, [N(0), N(1)]);
      case ButypeInfo =>
        forall k | 0 <= k < 12 ensures HasType(BUTYPE, ButypeInfos()[k]) { ButypeTyped(k); }
        ListReply(BUTYPE, ButypeInfos());
      case FsInfo => ListReply(FS_INFO, [sys.fs.value]);
      case TapeInfo => TapeFits(); ListReply(DEVICE, [TapeDevice()]);
      case _ =>
    }
  }

  lemma ConfigSendable(message: int, args: Value, sys: System)
    requires HasType(ArgsSchema(message), args) && SystemFits(sys, message)
    requires Dispatch(message) in {HostInfo, ConnectionType, AuthAttr, ButypeInfo, FsInfo, TapeInfo, ScsiInfo,
                                   ServerInfo, Unsupported}
    ensures Sendable(message, ConfigOutcome(message, args, sys))
  {
    if ConfigOutcome(message, args, sys).error == NO_ERR {
      match Dispatch(message) {
        case AuthAttr => PairsTyped(message, args, sys);
        case ScsiInfo => PairsTyped(message, args, sys);
        case HostInfo => TextsTyped(message, args, sys);
        case ServerInfo => TextsTyped(message, args, sys);
        case _ => ListsTyped(message, args, sys);
      }
    }
  }

  // --------------------------------------------------------------------------------------------- data requests

  // The environment array of a start request.
  function StartEnv(message: int, args: Value): seq<Pval>
    requires HasType(ArgsSchema(message), args) && Dispatch(message) in {DataStartBackup, DataStartRecover}
  {
    PvalsOf(Arg(message, args, if Dispatch(message).DataStartBackup? then 1 else 0))
  }

  // The first name of a recover request, if there is one.
  function FirstName(message: int, args: Value): Option<Name>
    requires HasType(ArgsSchema(message), args) && Dispatch(message).DataStartRecover?
  {
    var names := Arg(message, args, 1).items;
    if names == [] then None else
    assert HasType(Array(NAME), Arg(message, args, 1));
    FirstTyped(NAME, names);
    TypedFields(NAME.fields, names[0].items);
    assert HasType(Text, names[0].items[0]) && HasType(Text, names[0].items[1]);
    Some(Name(Chars(names[0].items[0].bytes), Chars(names[0].items[1].bytes)))
  }

  predicate EnvNamesPath(message: int, args: Value)
    requires HasType(ArgsSchema(message), args) && Dispatch(message) in {DataStartBackup, DataStartRecover}
  {
    Setting(StartEnv(message, args), "FILESYSTEM").Some? && Setting(StartEnv(message, args), "USER").Some?
  }

  // The data machine's request, for the messages that it knows; volumes is the file before the request.
  function RequestOf(message: int, args: Value, volumes: string, sys: System): Option<Request>
    requires HasType(ArgsSchema(message), args)
    requires Dispatch(message) in {DataStartBackup, DataStartRecover} ==> EnvNamesPath(message, args)
  {
    match Dispatch(message)
    case DataListen => Some(Listen(Arg(message, args, 0).n))
    case DataConnect => Some(Connect(Arg(message, args, 0).tag))
    case DataStartBackup =>
      var env := StartEnv(message, args);
      Some(StartBackup(env, BackupWorks(volumes, BackupOf(env, sys.ip, sys.op), sys.op, sys.junk)))
    case DataStartRecover => Some(StartRecover(sys.op.copies))
    case DataAbort => Some(Abort)
    case DataStop => Some(Stop)
    case DataGetEnv => Some(GetEnv)
    case ConnectClose => Some(Close)
    case _ => None
  }

  // The volume file after a request: only a backup writes it.
  function VolumesAfter(message: int, args: Value, volumes: string, sys: System): string
    requires HasType(ArgsSchema(message), args)
    requires Dispatch(message).DataStartBackup? ==> EnvNamesPath(message, args)
  {
    if Dispatch(message).DataStartBackup?
    then Volumes.FileAfter(volumes, BackupOf(StartEnv(message, args), sys.ip, sys.op), sys.junk)
    else volumes
  }

  // What a request has copied, and from where to where: only starts do.
  function CopyOf(message: int, args: Value, volumes: string, sys: System): Option<Copy>
    requires HasType(ArgsSchema(message), args)
    requires Dispatch(message) in {DataStartBackup, DataStartRecover} ==> EnvNamesPath(message, args)
    requires IsWord(sys.op.host, Space) && IsWord(sys.op.point, Space)
  {
    match Dispatch(message)
    case DataStartBackup =>
      VolumeFile.HostKnown(volumes, sys.op.host, sys.op.point);
      BackupCopy(volumes, BackupOf(StartEnv(message, args), sys.ip, sys.op), sys.op, sys.junk)
    case DataStartRecover =>
      RecoverCopy(volumes, StartEnv(message, args), sys.ip, FirstName(message, args), sys.junk)
    case _ => None
  }

  // The handler's error and body, from the state it finds.
  function DataOutcome(message: int, req: Request, state: int, env: seq<Pval>): Outcome {
    var error := ErrorOf(state, req);
    match Dispatch(message)
    case DataGetEnv => Outcome(error, EnvBody(env))
    case DataListen => Outcome(error, Items([N(0), Choice(0, Unit)]))
    case _ => Outcome(error, Items([N(0)]))
  }

  lemma DataSendable(message: int, req: Request, state: int, env: seq<Pval>)
    requires EnvFits(env)
    requires Dispatch(message) in {DataStartBackup, DataStartRecover, DataAbort, DataGetEnv, DataStop,
                                   DataListen, DataConnect}
    ensures Sendable(message, DataOutcome(message, req, state, env))
  {
    match Dispatch(message) {
      case DataGetEnv => EnvBodyTyped(env);
      case DataListen => Struct2(ENUM, ADDR, N(0), Choice(0, Unit));
      case _ => ErrorBody();
    }
  }

  function OpenError(conn: int, version: int): int {
    if conn != CONN_LISTEN then ILLEGAL_STATE_ERR else if version > 3 then ILLEGAL_ARGS_ERR else NO_ERR
  }

  // ---------------------------------------------------------------------------------------------- the server's turn

  // What a handler finds: its session's states, the environment, the volume file and the sequence counter.
  datatype Before = Before(states: States, env: seq<Pval>, volumes: string, sequence: int)

  predicate StartsNamed(message: int, args: Value)
    requires HasType(ArgsSchema(message), args)
  {
    Dispatch(message) in {DataStartBackup, DataStartRecover} ==> EnvNamesPath(message, args)
  }

  // The states that a request leaves: an open and a close touch the connection state, the data requests the data state,
  // a close all three.
  function StatesAfter(message: int, args: Value, b: Before, sys: System): States
    requires HasType(ArgsSchema(message), args) && StartsNamed(message, args)
  {
    var req := RequestOf(message, args, b.volumes, sys);
    var opens := Dispatch(message).ConnectOpen? && OpenError(b.states.conn, Arg(message, args, 0).n) == NO_ERR;
    var closes := Dispatch(message).ConnectClose?;
    States(if opens then CONN_CONNECTED else if closes then CONN_HALTED else b.states.conn,
           if req.Some? then NextState(b.states.data, req.value) else b.states.data,
           if closes then CONN_HALTED else b.states.mover)
  }

  function EnvAfter(message: int, args: Value, b: Before, sys: System): seq<Pval>
    requires HasType(ArgsSchema(message), args) && StartsNamed(message, args)
  {
    var req := RequestOf(message, args, b.volumes, sys);
    if req.Some? then NextEnv(b.states.data, b.env, req.value) else b.env
  }

  // All that a handler leaves.
  function Leaves(message: int, args: Value, b: Before, sys: System): Before
    requires HasType(ArgsSchema(message), args) && StartsNamed(message, args)
  {
    Before(StatesAfter(message, args, b, sys), EnvAfter(message, args, b, sys),
           VolumesAfter(message, args, b.volumes, sys), b.sequence)
  }

  // What the handler of a request decides, for the messages that get a reply.
  function OutcomeOf(message: int, args: Value, b: Before, sys: System): Outcome
    requires HasType(ArgsSchema(message), args) && Answerable(message, args, b.states.conn)
  {
    if Dispatch(message).ConnectOpen? then Outcome(OpenError(b.states.conn, Arg(message, args, 0).n), Items([N(0)]))
    else if RequestOf(message, args, b.volumes, sys).Some?
    then DataOutcome(message, RequestOf(message, args, b.volumes, sys).value, b.states.data, b.env)
    else ConfigOutcome(message, args, sys)
  }

  // The requests whose handlers do all that they do from what they find: not the empty handler, no open with version 0,
  // and a start names its path and user.
  predicate Answerable(message: int, args: Value, conn: int)
    requires HasType(ArgsSchema(message), args)
  {
    && !Dispatch(message).DataGetState? && StartsNamed(message, args)
    && (Dispatch(message).ConnectOpen? ==> conn != CONN_LISTEN || Arg(message, args, 0) != N(0))
  }

  // The messages that get a reply: all but 0xf001, which gets a greeting, and a close, which gets nothing.
  predicate GetsReply(message: int) { !Dispatch(message).AcceptNotify? && !Dispatch(message).ConnectClose? }

  lemma OutcomeSendable(message: int, args: Value, b: Before, sys: System)
    requires HasType(ArgsSchema(message), args) && Answerable(message, args, b.states.conn) && GetsReply(message)
    requires SystemFits(sys, message) && EnvFits(b.env)
    ensures Sendable(message, OutcomeOf(message, args, b, sys))
  {
    if Dispatch(message).ConnectOpen? {
      ErrorBody();
    } else if RequestOf(message, args, b.volumes, sys).Some? {
      DataSendable(message, RequestOf(message, args, b.volumes, sys).value, b.states.data, b.env);
    } else {
      ConfigSendable(message, args, sys);
    }
  }

  predicate BodyFits(message: int, out: Outcome) {
    out.error == 0 && Sendable(message, out) ==>
      4 + HEADER_SIZE + Sizeof(BodySchema(message).value, out.body) <= MAX_MESSAGE_SIZE
  }

  lemma TextSize(s: string)
    requires |s| < 64
    ensures HasType(Text, TextValue(s)) && Sizeof(Text, TextValue(s)) <= 68
  {
    PaddedUnder64(|s|);
  }

  const CAPABILITY := Struct([Text, U_LONG, Array(PVAL)])

  lemma CapabilityFits(name: string, p: Pval)
    requires |name| < 64 && |p.name| < 64 && |p.value| < 64
    ensures var cap := Items([TextValue(name), N(1), Items([PvalValue(p)])]);
            HasType(CAPABILITY, cap) && Sizeof(CAPABILITY, cap) <= 3 * 140
  {
    var cap := [TextValue(name), N(1), Items([PvalValue(p)])];
    SmallPval(p);
    ListOfOne(PVAL, PvalValue(p), 136);
    TextSize(name);
    FieldsTyped(CAPABILITY.fields, cap);
    FieldsBound(CAPABILITY.fields, cap, 140);
  }

  lemma ListOfOne(e: Schema, v: Value, bound: nat)
    requires HasType(e, v) && Sizeof(e, v) <= bound
    ensures HasType(Array(e), Items([v])) && Sizeof(Array(e), Items([v])) <= 4 + bound
  {
    ItemsTyped(e, [v]);
    ItemsBound(e, [v], bound);
  }

  lemma TapeFits()
    ensures HasType(DEVICE, TapeDevice()) && Sizeof(DEVICE, TapeDevice()) <= 500
  {
    var p := Pval("TAPE_SIZE", "1GB");
    CapabilityFits("/dev/tape0", p);
    ListOfOne(CAPABILITY, Items([TextValue("/dev/tape0"), N(1), Items([PvalValue(p)])]), 3 * 140);
    TextSize("HP MSL6000 Tape");
    Struct2(Text, Array(CAPABILITY), TextValue("HP MSL6000 Tape"), TapeDevice().items[1]);
  }

  lemma ListFits(e: Schema, vs: seq<Value>, bound: nat)
    requires |vs| < TWO32 && forall i :: 0 <= i < |vs| ==> HasType(e, vs[i]) && Sizeof(e, vs[i]) <= bound
    ensures HasType(Struct([ENUM, Array(e)]), Items([N(0), Items(vs)]))
    ensures Sizeof(Struct([ENUM, Array(e)]), Items([N(0), Items(vs)])) <= 8 + |vs| * bound
  {
    ItemsTyped(e, vs);
    ItemsBound(e, vs, bound);
    Struct2(ENUM, Array(e), N(0), Items(vs));
  }

  lemma ServerFits()
    ensures var body := Items([N(0), TextValue("Red Hat, Inc."), TextValue("NDMP Server"), TextValue("0.1"),
                               Items([N(0)])]);
            HasType(SERVER_INFO, body) && Sizeof(SERVER_INFO, body) <= 5 * 68
  {
    var vs := [N(0), TextValue("Red Hat, Inc."), TextValue("NDMP Server"), TextValue("0.1"), Items([N(0)])];
    TextSize("Red Hat, Inc.");
    TextSize("NDMP Server");
    TextSize("0.1");
    ItemsTyped(ENUM, [N(0)]);
    ItemsBound(ENUM, [N(0)], 4);
    FieldsTyped(SERVER_INFO.fields, vs);
    FieldsBound(SERVER_INFO.fields, vs, 68);
  }

  // The configuration replies that do not depend on the operating system fit.
  lemma ConfigFits(message: int, args: Value, sys: System)
    requires HasType(ArgsSchema(message), args) && SystemFits(sys, message)
    requires Dispatch(message) in {HostInfo, ConnectionType, AuthAttr, ButypeInfo, FsInfo, TapeInfo, ScsiInfo,
                                   ServerInfo, Unsupported}
    ensures BodyFits(message, ConfigOutcome(message, args, sys))
  {
    match Dispatch(message) {
      case AuthAttr => AuthFits(message, args, sys);
      case ServerInfo => ServerInfoFits(message, args, sys);
      case ConnectionType => ConstantListFits(message, args, sys);
      case ButypeInfo => ConstantListFits(message, args, sys);
      case TapeInfo => ConstantListFits(message, args, sys);
      case Unsupported =>
      case _ => SystemAnswerFits(message, args, sys);
    }
  }

  lemma AuthFits(message: int, args: Value, sys: System)
    requires HasType(ArgsSchema(message), args) && Dispatch(message).AuthAttr?
    ensures BodyFits(message, ConfigOutcome(message, args, sys))
  {
    Struct2(ENUM, AUTH_ATTR, N(0), Choice(0, Unit));
  }

  lemma ServerInfoFits(message: int, args: Value, sys: System)
    requires HasType(ArgsSchema(message), args) && Dispatch(message).ServerInfo?
    ensures BodyFits(message, ConfigOutcome(message, args, sys))
  {
    ServerFits();
  }

  lemma ConstantListFits(message: int, args: Value, sys: System)
    requires HasType(ArgsSchema(message), args) && Dispatch(message) in {ConnectionType, ButypeInfo, TapeInfo}
    ensures BodyFits(message, ConfigOutcome(message, args, sys))
  {
    match Dispatch(message) {
      case ConnectionType => ListFits(ENUM, [N(0), N(1)], 4);
      case ButypeInfo =>
        forall k | 0 <= k < 12 ensures HasType(BUTYPE, ButypeInfos()[k]) && Sizeof(BUTYPE, ButypeInfos()[k]) <= 16 {
          ButypeTyped(k);
        }
        ListFits(BUTYPE, ButypeInfos(), 16);
      case TapeInfo => TapeFits(); ListFits(DEVICE, [TapeDevice()], 500);
    }
  }

  lemma SystemAnswerFits(message: int, args: Value, sys: System)
    requires HasType(ArgsSchema(message), args) && SystemFits(sys, message)
    requires Dispatch(message) in {HostInfo, FsInfo, ScsiInfo}
    ensures BodyFits(message, ConfigOutcome(message, args, sys))
  {
    match Dispatch(message) {
      case HostInfo => if sys.host.Some? { HostFits(sys.host.value.0, sys.host.value.1, sys.host.value.2); }
      case FsInfo => if sys.fs.Some? { ListFits(FS_INFO, [sys.fs.value], MAX_MESSAGE_SIZE - 36); }
      case ScsiInfo => Struct2(ENUM, Array(DEVICE), N(0), Items(sys.devices));
    }
  }

  lemma HostFits(a: string, b: string, c: string)
    requires |a| + |b| + |c| <= MAX_MESSAGE_SIZE - 68
    ensures var body := Items([N(0), TextValue(a), TextValue(b), TextValue(c), TextValue("1")]);
            HasType(HOST_INFO, body) && Sizeof(HOST_INFO, body) <= MAX_MESSAGE_SIZE - 28
  {
    var texts := [TextValue(a), TextValue(b), TextValue(c), TextValue("1")];
    TextsSize(a, b, c, "1");
    FieldsCons(ENUM, N(0), [Text, Text, Text, Text], texts);
    assert [ENUM] + [Text, Text, Text, Text] == HOST_INFO.fields;
    assert [N(0)] + texts == [N(0), TextValue(a), TextValue(b), TextValue(c), TextValue("1")];
  }

  lemma TextCons(s: string, fs: seq<Schema>, vs: seq<Value>)
    requires |s| < TWO32 && HasFields(fs, vs)
    ensures HasFields([Text] + fs, [TextValue(s)] + vs)
    ensures SizeofFields([Text] + fs, [TextValue(s)] + vs) <= 7 + |s| + SizeofFields(fs, vs)
  {
    FieldsCons(Text, TextValue(s), fs, vs);
  }

  lemma TextsSize(a: string, b: string, c: string, d: string)
    requires |a| < TWO32 && |b| < TWO32 && |c| < TWO32 && |d| < TWO32
    ensures var fs, vs := [Text, Text, Text, Text], [TextValue(a), TextValue(b), TextValue(c), TextValue(d)];
            HasFields(fs, vs) && SizeofFields(fs, vs) <= 28 + |a| + |b| + |c| + |d|
  {
    TextCons(d, [], []);
    TextCons(c, [Text] + [], [TextValue(d)] + []);
    TextCons(b, [Text] + ([Text] + []), [TextValue(c)] + ([TextValue(d)] + []));
    TextCons(a, [Text] + ([Text] + ([Text] + [])), [TextValue(b)] + ([TextValue(c)] + ([TextValue(d)] + [])));
    assert [Text] + ([Text] + ([Text] + ([Text] + []))) == [Text, Text, Text, Text];
    assert [TextValue(a)] + ([TextValue(b)] + ([TextValue(c)] + ([TextValue(d)] + []))) ==
           [TextValue(a), TextValue(b), TextValue(c), TextValue(d)];
  }

  lemma DataFits(message: int, req: Request, state: int, env: seq<Pval>)
    requires EnvRoom(env)
    requires Dispatch(message) in {DataStartBackup, DataStartRecover, DataAbort, DataGetEnv, DataStop,
                                   DataListen, DataConnect}
    ensures BodyFits(message, DataOutcome(message, req, state, env))
  {
    match Dispatch(message) {
      case DataGetEnv => EnvBodyTyped(env);
      case DataListen =>
        Struct2(ENUM, ADDR, N(0), Choice(0, Unit));
        assert SizeofArm(ADDR.arms, 0, Unit) == 0;
      case _ => ErrorBody();
    }
  }

  // Every reply fits the buffer, if the operating system's answers do and the environment has room.
  lemma OutcomeFits(message: int, args: Value, b: Before, sys: System)
    requires HasType(ArgsSchema(message), args) && Answerable(message, args, b.states.conn) && GetsReply(message)
    requires SystemFits(sys, message) && EnvRoom(b.env)
    ensures BodyFits(message, OutcomeOf(message, args, b, sys))
  {
    if Dispatch(message).ConnectOpen? {
      ErrorBody();
    } else if RequestOf(message, args, b.volumes, sys).Some? {
      DataFits(message, RequestOf(message, args, b.volumes, sys).value, b.states.data, b.env);
    } else {
      ConfigFits(message, args, sys);
    }
  }

  function HeaderOf(request: seq<byte>): Header
    requires |request| >= 4 && DecodeHeader(request[4..]).Got?
  {
    DecodeHeader(request[4..]).value
  }

  function ArgsOfRequest(request: seq<byte>, sys: System): (args: Value)
    requires |request| >= 4 && DecodeHeader(request[4..]).Got?
    requires HasType(ArgsSchema(HeaderOf(request).message), sys.unset)
    ensures HasType(ArgsSchema(HeaderOf(request).message), args)
  {
    ArgsOf(HeaderOf(request).message, DecodeHeader(request[4..]).rest, sys.unset)
  }

  // The environment of a START_BACKUP request within the buffer has room in a reply.
  lemma StartEnvRoom(request: seq<byte>, sys: System)
    requires 4 <= |request| <= MAX_MESSAGE_SIZE && DecodeHeader(request[4..]).Got?
    requires SystemFits(sys, HeaderOf(request).message) && Dispatch(HeaderOf(request).message).DataStartBackup?
    ensures EnvRoom(StartEnv(HeaderOf(request).message, ArgsOfRequest(request, sys)))
  {
    var message, b := HeaderOf(request).message, DecodeHeader(request[4..]).rest;
    DecodedHeaderFits(request[4..]);
    match Decode(ArgsSchema(message), b)
    case Fail => SmallEnvRoom(StartEnv(message, sys.unset));
    case Got(v, rest) => RequestEnvRoom(b, v, rest);
  }

  // A request with a header, for which the handler has what it needs.
  predicate Serves(request: seq<byte>, conn: int, sys: System)
    requires |request| >= 4
  {
    && DecodeHeader(request[4..]).Got?
    && var h := HeaderOf(request);
    && SystemFits(sys, h.message)
    && var args := ArgsOfRequest(request, sys);
    && Answerable(h.message, args, conn)
  }

  // What the client reads, if anything.
  function Reception(request: seq<byte>, b: Before, sys: System): Option<Received>
    requires |request| >= 4 && Serves(request, b.states.conn, sys)
  {
    var h, args := HeaderOf(request), ArgsOfRequest(request, sys);
    match Dispatch(h.message)
    case ConnectClose => None
    case AcceptNotify => Some(Received(GreetingHeader(b.sequence, sys.time), Some(GREETING)))
    case _ =>
      var out := OutcomeOf(h.message, args, b, sys);
      Some(Received(ReplyHeader(h, b.sequence, sys.time, out.error), if out.error == 0 then Some(out.body) else None))
  }

  // And what the next request finds.
  function RequestLeaves(request: seq<byte>, b: Before, sys: System): Before
    requires |request| >= 4 && Serves(request, b.states.conn, sys)
  {
    var left := Leaves(HeaderOf(request).message, ArgsOfRequest(request, sys), b, sys);
    left.(sequence := b.sequence + if Dispatch(HeaderOf(request).message).ConnectClose? then 0 else 1)
  }

  // What it has copied.
  function RequestCopies(request: seq<byte>, b: Before, sys: System): Option<Copy>
    requires |request| >= 4 && Serves(request, b.states.conn, sys)
  {
    CopyOf(HeaderOf(request).message, ArgsOfRequest(request, sys), b.volumes, sys)
  }

  // What the handler of such a request decides can be sent and fits.
  lemma ReplyReady(request: seq<byte>, b: Before, sys: System)
    requires 4 <= |request| <= MAX_MESSAGE_SIZE && EnvRoom(b.env) && Serves(request, b.states.conn, sys)
    requires GetsReply(HeaderOf(request).message)
    ensures var message, args := HeaderOf(request).message, ArgsOfRequest(request, sys);
            Sendable(message, OutcomeOf(message, args, b, sys)) && BodyFits(message, OutcomeOf(message, args, b, sys))
  {
    var message, args := HeaderOf(request).message, ArgsOfRequest(request, sys);
    OutcomeSendable(message, args, b, sys);
    OutcomeFits(message, args, b, sys);
  }

  // The environment that a request leaves has room in a reply if the one it finds has.
  lemma NextEnvRoom(request: seq<byte>, b: Before, sys: System)
    requires 4 <= |request| <= MAX_MESSAGE_SIZE && EnvRoom(b.env) && Serves(request, b.states.conn, sys)
    ensures EnvRoom(RequestLeaves(request, b, sys).env)
  {
    SmallEnvRoom([]);
    if Dispatch(HeaderOf(request).message).DataStartBackup? { StartEnvRoom(request, sys); }
  }

  class NdmpServer {
    const data: DataService
    var sequence: int             // the static counter of get_next_seq_number

    // What a handler finds on a session's record.
    function Finds(session: Sessions.SessionInfo): Before
      reads this, data, session
    {
      Before(session.States(), data.env, data.volumes, sequence)
    }

    constructor (volumes: string)
      ensures sequence == 1 && data.volumes == volumes && data.env == [] && fresh(data)
    {
      data := new DataService(volumes);
      sequence := 1;
    }

    method GetNextSeqNumber() returns (n: int)
      modifies this`sequence
      ensures n == old(sequence) && sequence == old(sequence) + 1
    {
      n := sequence;
      sequence := sequence + 1;
    }

    // ndmp_accept_notify: the first message on a connection, framed
    method AcceptNotify(time: int) returns (reply: seq<byte>)
      requires ULong.Holds(sequence) && ULong.Holds(time)
      modifies this`sequence
      ensures sequence == old(sequence) + 1 && reply == GreetingBytes(old(sequence), time) && |reply| == 40
      ensures ClientDecode(reply) ==
              Some(Received(Header(old(sequence), time, 0, 0x502, 0, 0), Some(Items([N(0), N(3), Octets([])]))))
    {
      var n := GetNextSeqNumber();
      GreetingReads(n, time);
      reply := GreetingBytes(n, time);
    }

    // The data and connect handlers that ndmp_dispatch selects.
    method HandleData(message: int, args: Value, session: Sessions.SessionInfo, sys: System)
      returns (error: int, copy: Option<Copy>)
      requires HasType(ArgsSchema(message), args) && SystemFits(sys, message)
      requires Answerable(message, args, session.connectionState)
      requires RequestOf(message, args, data.volumes, sys).Some?
      modifies data, session`dataState, session`connectionState, session`moverState
      ensures error == ErrorOf(old(session.dataState), RequestOf(message, args, old(data.volumes), sys).value)
      ensures copy == CopyOf(message, args, old(data.volumes), sys)
      ensures Finds(session) == Leaves(message, args, old(Finds(session)), sys)
    {
      if Dispatch(message).DataStartBackup? {
        error, copy := HandleBackup(message, args, session, sys);
      } else if Dispatch(message).DataStartRecover? {
        error, copy := HandleRecover(message, args, session, sys);
      } else {
        error, copy := HandleShort(message, args, session, sys);
      }
    }

    method HandleBackup(message: int, args: Value, session: Sessions.SessionInfo, sys: System)
      returns (error: int, copy: Option<Copy>)
      requires HasType(ArgsSchema(message), args) && Dispatch(message).DataStartBackup? && EnvNamesPath(message, args)
      requires IsWord(sys.op.host, Space) && IsWord(sys.op.point, Space)
      modifies data, session`dataState
      ensures error == ErrorOf(old(session.dataState), RequestOf(message, args, old(data.volumes), sys).value)
      ensures copy == CopyOf(message, args, old(data.volumes), sys)
      ensures Finds(session) == Leaves(message, args, old(Finds(session)), sys)
    {
      VolumeFile.HostKnown(data.volumes, sys.op.host, sys.op.point);
      error, copy := data.DataStartBackup(session, StartEnv(message, args), sys.ip, sys.op, sys.junk);
    }

    method HandleRecover(message: int, args: Value, session: Sessions.SessionInfo, sys: System)
      returns (error: int, copy: Option<Copy>)
      requires HasType(ArgsSchema(message), args) && Dispatch(message).DataStartRecover? && EnvNamesPath(message, args)
      requires IsWord(sys.op.host, Space) && IsWord(sys.op.point, Space)
      modifies session`dataState
      ensures error == ErrorOf(old(session.dataState), RequestOf(message, args, old(data.volumes), sys).value)
      ensures copy == CopyOf(message, args, old(data.volumes), sys)
      ensures Finds(session) == Leaves(message, args, old(Finds(session)), sys)
    {
      error, copy := data.DataStartRecover(session, StartEnv(message, args), FirstName(message, args), sys.ip,
                                           sys.op.copies, sys.junk);
    }

    method HandleShort(message: int, args: Value, session: Sessions.SessionInfo, sys: System)
      returns (error: int, copy: Option<Copy>)
      requires HasType(ArgsSchema(message), args)
      requires Dispatch(message) in {DataListen, DataConnect, DataAbort, DataStop, DataGetEnv, ConnectClose}
      modifies data`env, session`dataState, session`connectionState, session`moverState
      ensures error == ErrorOf(old(session.dataState), RequestOf(message, args, old(data.volumes), sys).value)
      ensures copy == None
      ensures Finds(session) == Leaves(message, args, old(Finds(session)), sys)
    {
      copy := None;
      match Dispatch(message) {
        case DataListen => error := data.DataListen(session, Arg(message, args, 0).n);
        case DataConnect => error := data.DataConnect(session, Arg(message, args, 0).tag);
        case DataAbort => error := data.DataAbort(session);
        case DataStop => error := data.DataStop(session);
        case DataGetEnv =>
          var env;
          error, env := data.DataGetEnv(session);
        case ConnectClose =>
          data.ConnectCloseSession(session);
          error := NO_ERR;
      }
    }

    method HandleOpen(message: int, args: Value, session: Sessions.SessionInfo, sys: System) returns (error: int)
      requires HasType(ArgsSchema(message), args) && Dispatch(message).ConnectOpen?
      requires Answerable(message, args, session.connectionState)
      modifies session`connectionState
      ensures error == OpenError(old(session.connectionState), Arg(message, args, 0).n)
      ensures Finds(session) == Leaves(message, args, old(Finds(session)), sys)
    {
      error := data.ConnectOpen(session, Arg(message, args, 0).n);
    }

    // What a data message gets.
    method ReplyToData(message: int, args: Value, session: Sessions.SessionInfo, sys: System)
      returns (out: Outcome, copy: Option<Copy>)
      requires HasType(ArgsSchema(message), args) && SystemFits(sys, message) && GetsReply(message)
      requires Answerable(message, args, session.connectionState)
      requires RequestOf(message, args, data.volumes, sys).Some?
      modifies data, session`dataState, session`connectionState, session`moverState
      ensures out == DataOutcome(message, RequestOf(message, args, old(data.volumes), sys).value,
                                 old(session.dataState), old(data.env))
      ensures copy == CopyOf(message, args, old(data.volumes), sys)
      ensures Finds(session) == Leaves(message, args, old(Finds(session)), sys)
    {
      var error;
      error, copy := HandleData(message, args, session, sys);
      out := Outcome(error, if Dispatch(message).DataGetEnv? then EnvBody(data.env)
                            else if Dispatch(message).DataListen? then Items([N(0), Choice(0, Unit)])
                            else Items([N(0)]));
    }

    // The handler's decision for any request that gets a reply.
    method Handle(message: int, args: Value, session: Sessions.SessionInfo, sys: System)
      returns (out: Outcome, copy: Option<Copy>)
      requires HasType(ArgsSchema(message), args) && SystemFits(sys, message) && GetsReply(message)
      requires Answerable(message, args, session.connectionState)
      modifies data, session`dataState, session`connectionState, session`moverState
      ensures out == OutcomeOf(message, args, old(Finds(session)), sys)
      ensures copy == CopyOf(message, args, old(data.volumes), sys)
      ensures Finds(session) == Leaves(message, args, old(Finds(session)), sys)
    {
      copy := None;
      if Dispatch(message).ConnectOpen? {
        var error := HandleOpen(message, args, session, sys);
        out := Outcome(error, Items([N(0)]));
      } else if RequestOf(message, args, data.volumes, sys).Some? {
        out, copy := ReplyToData(message, args, session, sys);
      } else {
        out := ConfigOutcome(message, args, sys);
      }
    }

    // set_header and the encoding and framing of a reply
    method EncodeReply(request: Header, out: Outcome, time: int) returns (reply: seq<byte>)
      requires request.Fits() && ULong.Holds(sequence) && ULong.Holds(time)
      requires Sendable(request.message, out) && BodyFits(request.message, out)
      modifies this`sequence
      ensures sequence == old(sequence) + 1 && |reply| <= MAX_MESSAGE_SIZE
      ensures |MessageBytes(ReplyHeader(request, old(sequence), time, out.error), out.body)| < TWO31
      ensures reply == ReplyBytes(request, old(sequence), time, out)
      ensures ClientDecode(reply) ==
              Some(Received(ReplyHeader(request, old(sequence), time, out.error),
                            if out.error == 0 then Some(out.body) else None))
    {
      var n := GetNextSeqNumber();
      ClientReads(ReplyHeader(request, n, time, out.error), out.body);
      reply := ReplyBytes(request, n, time, out);
    }

    // The reply to a request that gets one.
    method ReplyTo(request: seq<byte>, session: Sessions.SessionInfo, sys: System)
      returns (reply: seq<byte>, copy: Option<Copy>)
      requires 4 <= |request| <= MAX_MESSAGE_SIZE && ULong.Holds(sequence) && EnvRoom(data.env)
      requires Serves(request, session.connectionState, sys) && GetsReply(HeaderOf(request).message)
      modifies this`sequence, data, session`dataState, session`connectionState, session`moverState
      ensures |reply| <= MAX_MESSAGE_SIZE && ClientDecode(reply) == Reception(request, old(Finds(session)), sys)
      ensures copy == RequestCopies(request, old(Finds(session)), sys)
      ensures Finds(session) == RequestLeaves(request, old(Finds(session)), sys)
    {
      var h, args := HeaderOf(request), ArgsOfRequest(request, sys);
      DecodedHeaderFits(request[4..]);
      ReplyReady(request, Finds(session), sys);
      var out;
      out, copy := Handle(h.message, args, session, sys);
      reply := EncodeReply(h, out, sys.time);
    }

    // xdr_decode_encode for a request that arrived as one record; None is a transaction freed without a reply.
    method XdrDecodeEncode(request: seq<byte>, session: Sessions.SessionInfo, sys: System)
      returns (reply: Option<seq<byte>>, copy: Option<Copy>)
      requires 4 <= |request| <= MAX_MESSAGE_SIZE && ULong.Holds(sequence) && EnvRoom(data.env)
      requires Serves(request, session.connectionState, sys)
      modifies this`sequence, data, session`dataState, session`connectionState, session`moverState
      ensures reply.Some? == Reception(request, old(Finds(session)), sys).Some?
      ensures reply.Some? ==> |reply.value| <= MAX_MESSAGE_SIZE &&
                              ClientDecode(reply.value) == Reception(request, old(Finds(session)), sys)
      ensures copy == RequestCopies(request, old(Finds(session)), sys)
      ensures Finds(session) == RequestLeaves(request, old(Finds(session)), sys) && EnvRoom(data.env)
    {
      NextEnvRoom(request, Finds(session), sys);
      copy := None;
      if Dispatch(HeaderOf(request).message).ConnectClose? {
        data.ConnectCloseSession(session);
        reply := None;
      } else if Dispatch(HeaderOf(request).message).AcceptNotify? {
        GreetingReads(sequence, sys.time);
        var bytes := AcceptNotify(sys.time);
        reply := Some(bytes);
      } else {
        var bytes;
        bytes, copy := ReplyTo(request, session, sys);
        reply := Some(bytes);
      }
    }
  }
}
