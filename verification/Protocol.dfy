/** What each message number of `ndmp.x` does, told from the bytes of the request: the number is the fourth word of the
    header, behind the mark.  Numbers, errors and states are those of the protocol's enums, written out: error 1 is not
    supported, 9 illegal arguments, 19 illegal state; a data state is IDLE 0, HALTED 2, LISTEN 3 or CONNECTED 4. */
module Protocol {
  import opened Common
  import opened LinkedQueue
  import opened Xdr
  import opened Messages
  import opened Replies
  import opened DataStates
  import opened DataService
  import opened VolumeFile
  import opened Volumes
  import opened WireLayout
  import opened NdmpServer

  // The message number, a signed word, and the sequence number that stand in a request.
  function NumberIn(request: seq<byte>): int
    requires |request| >= 28
  {
    if WordIn(request, 4) < TWO31 then WordIn(request, 4) else WordIn(request, 4) - TWO32
  }

  function SequenceIn(request: seq<byte>): int
    requires |request| >= 28
  {
    WordIn(request, 1)
  }

  lemma HeaderIn(request: seq<byte>)
    requires |request| >= 28
    ensures DecodeHeader(request[4..]).Got? && DecodeHeader(request[4..]).rest == request[28..]
    ensures HeaderOf(request).Fits() && HeaderOf(request).sequence == SequenceIn(request)
    ensures HeaderOf(request).message == NumberIn(request)
  {
    DecodedHeaderFits(request[4..]);
    DecodedWords(request[4..]);
    WordBehind(request, 0);
    WordBehind(request, 3);
    assert request[4..][24..] == request[28..];
    SignedWord(HeaderOf(request).message);
  }

  lemma SignedWord(n: int)
    requires Int.Holds(n)
    ensures n == if n % TWO32 < TWO31 then n % TWO32 else n % TWO32 - TWO32
  {
  }

  // A request that the server can handle, with the states that it finds.
  predicate Handles(request: seq<byte>, b: Before, sys: System) {
    |request| >= 28 && Serves(request, b.states.conn, sys)
  }

  // Only a whole header is handled, and no message 0x400.
  lemma HandlesIff(request: seq<byte>, b: Before, sys: System)
    requires |request| >= 4 && Serves(request, b.states.conn, sys)
    ensures Handles(request, b, sys) && NumberIn(request) != 0x400
  {
    DecodedHeaderFits(request[4..]);
    HeaderIn(request);
  }

  // The k-th argument of a request with these fields: what is decoded behind the header, or what was there before.
  function ArgIn(fs: seq<Schema>, request: seq<byte>, unset: Value, k: nat): (v: Value)
    requires |request| >= 28 && k < |fs| && HasType(Struct(fs), unset)
    ensures HasType(fs[k], v)
  {
    DecodeSound(Struct(fs), request[28..]);
    var args := match Decode(Struct(fs), request[28..]) case Fail => unset case Got(v, _) => v;
    TypedFields(fs, args.items);
    args.items[k]
  }

  // Arguments that a client has encoded are the ones that are found.
  lemma ArgSent(fs: seq<Schema>, vs: seq<Value>, request: seq<byte>, unset: Value, k: nat)
    requires |request| >= 28 && k < |fs| && HasType(Struct(fs), unset) && HasType(Struct(fs), Items(vs))
    requires Encode(Struct(fs), Items(vs)) <= request[28..]
    ensures k < |vs| && ArgIn(fs, request, unset, k) == vs[k]
  {
    var r := Encode(Struct(fs), Items(vs));
    RoundTrip(Struct(fs), Items(vs), request[28..][|r|..]);
    assert r + request[28..][|r|..] == request[28..];
    TypedFields(fs, vs);
  }

  // All that a request comes to: what the client reads, what the next request finds, what was copied.
  datatype Effect = Effect(received: Option<Received>, left: Before, copy: Option<Copy>)

  function EffectOf(request: seq<byte>, b: Before, sys: System): Effect
    requires Handles(request, b, sys)
  {
    Effect(Reception(request, b, sys), RequestLeaves(request, b, sys), RequestCopies(request, b, sys))
  }

  // A reply to the request, with a body exactly on success.
  function ReplyWith(request: seq<byte>, b: Before, sys: System, error: int, body: Value): Option<Received>
    requires |request| >= 28
  {
    Some(Received(Header(b.sequence, sys.time, 1, NumberIn(request), SequenceIn(request), error),
                  if error == 0 then Some(body) else None))
  }

  // A reply takes a number from the counter; apart from that only states change.
  function AfterStates(b: Before, states: States): Before { b.(states := states, sequence := b.sequence + 1) }

  // The handler of the number gets the decoded arguments.
  lemma Matched(request: seq<byte>, b: Before, sys: System, n: int)
    requires Handles(request, b, sys) && n == NumberIn(request)
    ensures HeaderOf(request).message == n && HasType(ArgsSchema(n), ArgsOfRequest(request, sys))
    ensures StartsNamed(n, ArgsOfRequest(request, sys))
  {
    HeaderIn(request);
  }

  // What is read and left is what the handler of the number decides.
  lemma Decided(request: seq<byte>, b: Before, sys: System, n: int)
    requires Handles(request, b, sys) && n == NumberIn(request) && GetsReply(n)
    ensures HeaderOf(request).message == n && HasType(ArgsSchema(n), ArgsOfRequest(request, sys))
    ensures Answerable(n, ArgsOfRequest(request, sys), b.states.conn) && SystemFits(sys, n)
    ensures var args := ArgsOfRequest(request, sys);
            var out := OutcomeOf(n, args, b, sys);
            && Reception(request, b, sys) == ReplyWith(request, b, sys, out.error, out.body)
            && RequestLeaves(request, b, sys) == Leaves(n, args, b, sys).(sequence := b.sequence + 1)
            && RequestCopies(request, b, sys) == CopyOf(n, args, b.volumes, sys)
  {
    HeaderIn(request);
  }

  // The three data messages without arguments.
  lemma ShortDecided(request: seq<byte>, b: Before, sys: System, n: int, req: Request)
    requires Handles(request, b, sys) && n == NumberIn(request)
    requires Dispatch(n) == match req case Abort => DataAbort case Stop => DataStop case _ => DataGetEnv
    requires req in {Abort, Stop, GetEnv}
    ensures Reception(request, b, sys) == ReplyWith(request, b, sys, ErrorOf(b.states.data, req),
                     if req.GetEnv? then Items([N(0), EnvValue(b.env)]) else Items([N(0)]))
    ensures RequestLeaves(request, b, sys) ==
            Before(States(b.states.conn, NextState(b.states.data, req), b.states.mover),
                   NextEnv(b.states.data, b.env, req), b.volumes, b.sequence + 1)
    ensures RequestCopies(request, b, sys) == None
  {
    Matched(request, b, sys, n);
    DataDecided(request, b, sys, n, req);
  }

  // The arguments that the handler gets are the fields behind the header.
  lemma ArgsAre(request: seq<byte>, b: Before, sys: System, n: int, fs: seq<Schema>, k: nat)
    requires Handles(request, b, sys) && n == NumberIn(request) && ArgsSchema(n) == Struct(fs) && k < |fs|
    ensures HeaderOf(request).message == n && HasType(ArgsSchema(n), ArgsOfRequest(request, sys))
    ensures HasType(Struct(fs), sys.unset)
    ensures Arg(n, ArgsOfRequest(request, sys), k) == ArgIn(fs, request, sys.unset, k)
  {
    HeaderIn(request);
  }

  // A message of the data machine, other than a close, moves only the data state, and the environment and the file as
  // its request says.
  lemma DataDecided(request: seq<byte>, b: Before, sys: System, n: int, req: Request)
    requires Handles(request, b, sys) && n == NumberIn(request) && GetsReply(n)
    requires HasType(ArgsSchema(n), ArgsOfRequest(request, sys)) && StartsNamed(n, ArgsOfRequest(request, sys))
    requires RequestOf(n, ArgsOfRequest(request, sys), b.volumes, sys) == Some(req) && !req.Close?
    ensures Reception(request, b, sys) ==
            ReplyWith(request, b, sys, ErrorOf(b.states.data, req), DataOutcome(n, req, b.states.data, b.env).body)
    ensures RequestLeaves(request, b, sys) ==
            Before(States(b.states.conn, NextState(b.states.data, req), b.states.mover),
                   NextEnv(b.states.data, b.env, req),
                   VolumesAfter(n, ArgsOfRequest(request, sys), b.volumes, sys), b.sequence + 1)
    ensures SystemFits(sys, n)
    ensures RequestCopies(request, b, sys) == CopyOf(n, ArgsOfRequest(request, sys), b.volumes, sys)
  {
    Decided(request, b, sys, n);
  }

  // ------------------------------------------------------------------------------------------ connect messages

  const OPEN := [Num(UShort)]

  lemma OpenServed(request: seq<byte>, b: Before, sys: System)
    requires Handles(request, b, sys) && NumberIn(request) == 0x900
    ensures HasType(Struct(OPEN), sys.unset)
    ensures var error := if b.states.conn != 1 then 19 else if ArgIn(OPEN, request, sys.unset, 0).n > 3 then 9 else 0;
            EffectOf(request, b, sys) ==
            Effect(ReplyWith(request, b, sys, error, Items([N(0)])),
                   AfterStates(b, b.states.(conn := if error == 0 then 2 else b.states.conn)), None)
  {
    ArgsAre(request, b, sys, 0x900, OPEN, 0);
    Decided(request, b, sys, 0x900);
  }

  lemma CloseServed(request: seq<byte>, b: Before, sys: System)
    requires Handles(request, b, sys) && NumberIn(request) == 0x902
    ensures EffectOf(request, b, sys) == Effect(None, b.(states := States(4, 4, 4)), None)
  {
    HeaderIn(request);
  }

  // ------------------------------------------------------------------------------------------- data messages

  const LISTEN := [Num(Int)]
  const CONNECT := [Union(Case(0, Void, Case(1, Struct([Num(ULong), Num(UShort)]), Case(2, Struct([Num(ULong)]),
                          Case(3, Struct([Text]), NoArm)))))]

  lemma AddressSchemas()
    ensures ArgsSchema(0x409) == Struct(LISTEN) && LISTEN[0] == ENUM && Dispatch(0x409).DataListen?
    ensures ArgsSchema(0x40A) == Struct(CONNECT) && CONNECT[0] == ADDR && Dispatch(0x40A).DataConnect?
  {
  }

  // The address type of a LISTEN is its only argument, that of a CONNECT the tag of its only argument.
  lemma AddressArg(request: seq<byte>, b: Before, sys: System, n: int, fs: seq<Schema>)
    requires Handles(request, b, sys) && n == NumberIn(request) && ArgsSchema(n) == Struct(fs) && |fs| > 0
    requires (Dispatch(n).DataListen? && fs[0] == ENUM) || (Dispatch(n).DataConnect? && fs[0] == ADDR)
    ensures HeaderOf(request).message == n && HasType(ArgsSchema(n), ArgsOfRequest(request, sys))
    ensures HasType(Struct(fs), sys.unset) && StartsNamed(n, ArgsOfRequest(request, sys))
    ensures var v := ArgIn(fs, request, sys.unset, 0);
            RequestOf(n, ArgsOfRequest(request, sys), b.volumes, sys) ==
            Some(if Dispatch(n).DataListen? then Listen(v.n) else Connect(v.tag))
  {
    Matched(request, b, sys, n);
    ArgsAre(request, b, sys, n, fs, 0);
  }

  lemma ListenServed(request: seq<byte>, b: Before, sys: System)
    requires Handles(request, b, sys) && NumberIn(request) == 0x409
    ensures HasType(Struct(LISTEN), sys.unset)
    ensures var error := if b.states.data != 0 then 19
                         else if ArgIn(LISTEN, request, sys.unset, 0).n != 0 then 9 else 0;
            EffectOf(request, b, sys) ==
            Effect(ReplyWith(request, b, sys, error, Items([N(0), Choice(0, Unit)])), 
                   AfterStates(b, b.states.(data := if error == 0 then 3 else b.states.data)), None)
  {
    AddressSchemas();
    AddressArg(request, b, sys, 0x409, LISTEN);
    DataDecided(request, b, sys, 0x409, Listen(ArgIn(LISTEN, request, sys.unset, 0).n));
  }

  lemma ConnectServed(request: seq<byte>, b: Before, sys: System)
    requires Handles(request, b, sys) && NumberIn(request) == 0x40A
    ensures HasType(Struct(CONNECT), sys.unset)
    ensures var error := if b.states.data != 0 then 19
                         else if ArgIn(CONNECT, request, sys.unset, 0).tag != 0 then 9 else 0;
            EffectOf(request, b, sys) ==
            Effect(ReplyWith(request, b, sys, error, Items([N(0)])), 
                   AfterStates(b, b.states.(data := if error == 0 then 4 else b.states.data)), None)
  {
    AddressSchemas();
    AddressArg(request, b, sys, 0x40A, CONNECT);
    DataDecided(request, b, sys, 0x40A, Connect(ArgIn(CONNECT, request, sys.unset, 0).tag));
  }

  lemma AbortServed(request: seq<byte>, b: Before, sys: System)
    requires Handles(request, b, sys) && NumberIn(request) == 0x403
    ensures var error := if b.states.data in {0, 2} then 19 else 0;
            EffectOf(request, b, sys) ==
            Effect(ReplyWith(request, b, sys, error, Items([N(0)])), 
                   AfterStates(b, b.states.(data := if error == 0 then 2 else b.states.data)), None)
  {
    ShortDecided(request, b, sys, 0x403, Abort);
  }

  lemma StopServed(request: seq<byte>, b: Before, sys: System)
    requires Handles(request, b, sys) && NumberIn(request) == 0x407
    ensures var error := if b.states.data != 2 then 19 else 0;
            EffectOf(request, b, sys) ==
            Effect(ReplyWith(request, b, sys, error, Items([N(0)])), 
                   if error == 0 then AfterStates(b, b.states.(data := 0)).(env := []) else AfterStates(b, b.states),
                   None)
  {
    ShortDecided(request, b, sys, 0x407, Stop);
  }

  lemma GetEnvServed(request: seq<byte>, b: Before, sys: System)
    requires Handles(request, b, sys) && NumberIn(request) == 0x404
    ensures EffectOf(request, b, sys) ==
            Effect(ReplyWith(request, b, sys, 0, Items([N(0), EnvValue(b.env)])), AfterStates(b, b.states), None)
  {
    ShortDecided(request, b, sys, 0x404, GetEnv);
  }

  // The pairs of an environment: first the name, then the value.
  lemma PairsInOrder(v: Value, i: nat)
    requires HasType(Array(Struct([Text, Text])), v) && i < |v.items|
    ensures |PvalsOf(v)| == |v.items| && IsPval(v.items[i])
    ensures PvalsOf(v)[i] == Pval(Chars(v.items[i].items[0].bytes), Chars(v.items[i].items[1].bytes))
  {
    PvalsTyped(v.items);
  }

  // And in a reply they stand in the same order.
  lemma PairsSent(env: seq<Pval>, i: nat)
    requires i < |env|
    ensures |EnvValue(env).items| == |env|
    ensures EnvValue(env).items[i] == Items([Octets(Ascii(env[i].name)), Octets(Ascii(env[i].value))])
  {
  }

  // --------------------------------------------------------------------------------------------------- starts

  const BACKUP := [Text, Array(Struct([Text, Text]))]
  const RECOVER := [Array(Struct([Text, Text])),
                    Array(Struct([Text, Text, Text, Text, Struct([Num(ULong), Num(ULong)]),
                                  Struct([Num(ULong), Num(ULong)])])),
                    Text]

  lemma StartSchemas()
    ensures ArgsSchema(0x401) == Struct(BACKUP) && BACKUP[1] == Array(PVAL) && Dispatch(0x401).DataStartBackup?
    ensures ArgsSchema(0x402) == Struct(RECOVER) && Dispatch(0x402).DataStartRecover?
    ensures RECOVER[0] == Array(PVAL) && RECOVER[1] == Array(NAME)
  {
  }

  // The settings that a start works with.
  datatype Asked = Asked(path: string, user: string)

  predicate AsksFor(env: seq<Pval>, a: Asked) {
    Setting(env, "FILESYSTEM") == Some(a.path) && Setting(env, "USER") == Some(a.user)
  }

  // The environment of a start is its argument of pairs.
  lemma StartArgs(request: seq<byte>, b: Before, sys: System, n: int, fs: seq<Schema>, k: nat)
    requires Handles(request, b, sys) && n == NumberIn(request) && ArgsSchema(n) == Struct(fs)
    requires Dispatch(n) in {DataStartBackup, DataStartRecover} && k < |fs| && fs[k] == Array(PVAL)
    requires k == if Dispatch(n).DataStartBackup? then 1 else 0
    ensures HasType(ArgsSchema(n), ArgsOfRequest(request, sys)) && HasType(Struct(fs), sys.unset)
    ensures StartsNamed(n, ArgsOfRequest(request, sys))
    ensures StartEnv(n, ArgsOfRequest(request, sys)) == PvalsOf(ArgIn(fs, request, sys.unset, k))
  {
    Matched(request, b, sys, n);
    ArgsAre(request, b, sys, n, fs, k);
  }

  lemma BackupReply(request: seq<byte>, b: Before, sys: System, n: int)
    requires Handles(request, b, sys) && n == NumberIn(request) && Dispatch(n).DataStartBackup?
    requires HasType(ArgsSchema(n), ArgsOfRequest(request, sys)) && EnvNamesPath(n, ArgsOfRequest(request, sys))
    ensures var env := StartEnv(n, ArgsOfRequest(request, sys));
            var backup := BackupOf(env, sys.ip, sys.op);
            var works := BackupWorks(b.volumes, backup, sys.op, sys.junk);
            && Reception(request, b, sys) ==
               ReplyWith(request, b, sys, if b.states.data != 4 || !works then 19 else 0, Items([N(0)]))
            && RequestLeaves(request, b, sys) ==
               Before(States(b.states.conn, 2, b.states.mover), env, FileAfter(b.volumes, backup, sys.junk),
                      b.sequence + 1)
            && HostWords(WithHost(b.volumes, backup.host, backup.point)) != []
            && RequestCopies(request, b, sys) == BackupCopy(b.volumes, backup, sys.op, sys.junk)
  {
    var env := StartEnv(n, ArgsOfRequest(request, sys));
    var works := BackupWorks(b.volumes, BackupOf(env, sys.ip, sys.op), sys.op, sys.junk);
    DataDecided(request, b, sys, n, StartBackup(env, works));
    HostKnown(b.volumes, sys.op.host, sys.op.point);
  }

  // What a backup does to the file, and where it copies to, spelled out.
  lemma BackupSpelled(text: string, backup: Backup, op: Operator, junk: Record)
    requires HostWords(WithHost(text, backup.host, backup.point)) != []
    ensures var found := FirstMatch(RecordsOf(text, junk), ByKey(backup.ip + backup.path));
            var vol := if found.Some? then found.value.vol else backup.vol;
            var hosted := text + if |Words(text)| >= 2 then "" else backup.host + " " + (backup.point + "\n");
            var line := backup.vol + " " + (backup.ip + backup.path + " " + (backup.user + "\n"));
            && FileAfter(text, backup, junk) == hosted + (if found.Some? then "" else line)
            && |Words(hosted)| >= 2
            && BackupCopy(text, backup, op, junk) ==
               if found.None? && !op.mounts then None
               else Some(Copy(backup.user + "@" + backup.ip + ":" + backup.path + "/",
                              Words(hosted)[1] + "/" + vol + "/" + (backup.ip + backup.path)))
  {
    assert text + "" == text;
    assert WithHost(text, backup.host, backup.point) + "" == WithHost(text, backup.host, backup.point);
  }

  // The file with a host line.
  function Hosted(text: string, op: Operator): string {
    text + if |Words(text)| >= 2 then "" else op.host + " " + (op.point + "\n")
  }

  // A START_BACKUP: the volume is the first recorded one for address and path, or the operator's, which is then
  // recorded together with the user; a file without a host line gets one first.  All this happens in every state.
  function BackupEffect(request: seq<byte>, b: Before, sys: System, env: seq<Pval>, a: Asked): Effect
    requires |request| >= 28 && |Words(Hosted(b.volumes, sys.op))| >= 2
  {
    var key := sys.ip + a.path;
    var found := FirstMatch(RecordsOf(b.volumes, sys.junk), ByKey(key));
    var mounted := found.Some? || sys.op.mounts;
    var error := if b.states.data != 4 || !mounted || !sys.op.copies then 19 else 0;
    var line := sys.op.vol + " " + (key + " " + (a.user + "\n"));
    var dir := Words(Hosted(b.volumes, sys.op))[1] + "/" +
               (if found.Some? then found.value.vol else sys.op.vol) + "/" + key;
    Effect(ReplyWith(request, b, sys, error, Items([N(0)])),
           Before(States(b.states.conn, 2, b.states.mover), env,
                  Hosted(b.volumes, sys.op) + (if found.Some? then "" else line), b.sequence + 1),
           if mounted then Some(Copy(a.user + "@" + sys.ip + ":" + a.path + "/", dir)) else None)
  }

  lemma BackupBy(request: seq<byte>, b: Before, sys: System, n: int, fs: seq<Schema>, a: Asked)
    requires Handles(request, b, sys) && n == NumberIn(request) && Dispatch(n).DataStartBackup?
    requires ArgsSchema(n) == Struct(fs) && |fs| > 1 && fs[1] == Array(PVAL) && HasType(Struct(fs), sys.unset)
    requires AsksFor(PvalsOf(ArgIn(fs, request, sys.unset, 1)), a)
    ensures |Words(Hosted(b.volumes, sys.op))| >= 2
    ensures EffectOf(request, b, sys) == BackupEffect(request, b, sys, PvalsOf(ArgIn(fs, request, sys.unset, 1)), a)
  {
    StartArgs(request, b, sys, n, fs, 1);
    BackupReply(request, b, sys, n);
    BackupSpelled(b.volumes, BackupOf(PvalsOf(ArgIn(fs, request, sys.unset, 1)), sys.ip, sys.op), sys.op, sys.junk);
  }

  lemma BackupServed(request: seq<byte>, b: Before, sys: System, a: Asked)
    requires Handles(request, b, sys) && NumberIn(request) == 0x401 && HasType(Struct(BACKUP), sys.unset)
    requires AsksFor(PvalsOf(ArgIn(BACKUP, request, sys.unset, 1)), a)
    ensures |Words(Hosted(b.volumes, sys.op))| >= 2
    ensures EffectOf(request, b, sys) ==
            BackupEffect(request, b, sys, PvalsOf(ArgIn(BACKUP, request, sys.unset, 1)), a)
  {
    StartSchemas();
    BackupBy(request, b, sys, 0x401, BACKUP, a);
  }

  lemma RecoverReply(request: seq<byte>, b: Before, sys: System, n: int)
    requires Handles(request, b, sys) && n == NumberIn(request) && Dispatch(n).DataStartRecover?
    requires HasType(ArgsSchema(n), ArgsOfRequest(request, sys)) && EnvNamesPath(n, ArgsOfRequest(request, sys))
    ensures Reception(request, b, sys) ==
            ReplyWith(request, b, sys, if b.states.data != 4 || !sys.op.copies then 19 else 0, Items([N(0)]))
    ensures RequestLeaves(request, b, sys) ==
            Before(States(b.states.conn, 2, b.states.mover), b.env, b.volumes, b.sequence + 1)
    ensures var args := ArgsOfRequest(request, sys);
            RequestCopies(request, b, sys) ==
            RecoverCopy(b.volumes, StartEnv(n, args), sys.ip, FirstName(n, args), sys.junk)
  {
    DataDecided(request, b, sys, n, StartRecover(sys.op.copies));
  }

  // The first name of a list gives the path within the backup and the place on the client.
  function NameIn(names: Value): (n: Option<Name>)
    requires HasType(Array(NAME), names)
  {
    if names.items == [] then None else
    FirstTyped(NAME, names.items);
    TypedFields(NAME.fields, names.items[0].items);
    assert HasType(Text, names.items[0].items[0]) && HasType(Text, names.items[0].items[1]);
    Some(Name(Chars(names.items[0].items[0].bytes), Chars(names.items[0].items[1].bytes)))
  }

  lemma NameArg(request: seq<byte>, b: Before, sys: System, n: int, fs: seq<Schema>)
    requires Handles(request, b, sys) && n == NumberIn(request) && ArgsSchema(n) == Struct(fs)
    requires Dispatch(n).DataStartRecover? && |fs| > 1 && fs[1] == Array(NAME)
    ensures HasType(ArgsSchema(n), ArgsOfRequest(request, sys)) && HasType(Struct(fs), sys.unset)
    ensures FirstName(n, ArgsOfRequest(request, sys)) == NameIn(ArgIn(fs, request, sys.unset, 1))
  {
    ArgsAre(request, b, sys, n, fs, 1);
  }

  lemma RecoverSpelled(text: string, env: seq<Pval>, a: Asked, ip: string, name: Option<Name>, junk: Record)
    requires AsksFor(env, a)
    ensures var found := LastMatch(RecordsOf(text, junk), ByKey(ip + a.path));
            RecoverCopy(text, env, ip, name, junk) ==
            if name.None? || found.None? || |Words(text)| < 2 then None
            else Some(Copy(Words(text)[1] + "/" + found.value.vol + "/" + (ip + a.path) + name.value.original,
                           a.user + "@" + ip + ":" + name.value.destination))
  {
  }

  // A START_RECOVER: the volume is the last recorded one for address and path.
  function RecoverEffect(request: seq<byte>, b: Before, sys: System, a: Asked, name: Option<Name>): Effect
    requires |request| >= 28
  {
    var found := LastMatch(RecordsOf(b.volumes, sys.junk), ByKey(sys.ip + a.path));
    Effect(ReplyWith(request, b, sys, if b.states.data != 4 || !sys.op.copies then 19 else 0, Items([N(0)])),
           Before(States(b.states.conn, 2, b.states.mover), b.env, b.volumes, b.sequence + 1),
           if name.None? || found.None? || |Words(b.volumes)| < 2 then None
           else Some(Copy(Words(b.volumes)[1] + "/" + found.value.vol + "/" + (sys.ip + a.path) + name.value.original,
                          a.user + "@" + sys.ip + ":" + name.value.destination)))
  }

  lemma RecoverBy(request: seq<byte>, b: Before, sys: System, n: int, fs: seq<Schema>, a: Asked)
    requires Handles(request, b, sys) && n == NumberIn(request) && Dispatch(n).DataStartRecover?
    requires ArgsSchema(n) == Struct(fs) && |fs| > 1 && fs[0] == Array(PVAL) && fs[1] == Array(NAME)
    requires HasType(Struct(fs), sys.unset) && AsksFor(PvalsOf(ArgIn(fs, request, sys.unset, 0)), a)
    ensures EffectOf(request, b, sys) ==
            RecoverEffect(request, b, sys, a, NameIn(ArgIn(fs, request, sys.unset, 1)))
  {
    StartArgs(request, b, sys, n, fs, 0);
    NameArg(request, b, sys, n, fs);
    RecoverReply(request, b, sys, n);
    RecoverSpelled(b.volumes, PvalsOf(ArgIn(fs, request, sys.unset, 0)), a, sys.ip,
                   NameIn(ArgIn(fs, request, sys.unset, 1)), sys.junk);
  }

  lemma RecoverServed(request: seq<byte>, b: Before, sys: System, a: Asked)
    requires Handles(request, b, sys) && NumberIn(request) == 0x402 && HasType(Struct(RECOVER), sys.unset)
    requires AsksFor(PvalsOf(ArgIn(RECOVER, request, sys.unset, 0)), a)
    ensures EffectOf(request, b, sys) ==
            RecoverEffect(request, b, sys, a, NameIn(ArgIn(RECOVER, request, sys.unset, 1)))
  {
    StartSchemas();
    RecoverBy(request, b, sys, 0x402, RECOVER, a);
  }

  // ------------------------------------------------------------------------------------ configuration messages

  // A configuration message leaves everything as it is.
  lemma ConfigDecided(request: seq<byte>, b: Before, sys: System, n: int)
    requires Handles(request, b, sys) && n == NumberIn(request)
    requires Dispatch(n) in {HostInfo, ConnectionType, AuthAttr, ButypeInfo, FsInfo, TapeInfo, ScsiInfo, ServerInfo,
                             Unsupported}
    ensures HasType(ArgsSchema(n), ArgsOfRequest(request, sys)) && SystemFits(sys, n)
    ensures var out := ConfigOutcome(n, ArgsOfRequest(request, sys), sys);
            EffectOf(request, b, sys) ==
            Effect(ReplyWith(request, b, sys, out.error, out.body), AfterStates(b, b.states), None)
  {
    Matched(request, b, sys, n);
    Decided(request, b, sys, n);
  }

  // A reply that changes nothing.
  function Told(request: seq<byte>, b: Before, sys: System, error: int, body: Value): Effect
    requires |request| >= 28
  {
    Effect(ReplyWith(request, b, sys, error, body), AfterStates(b, b.states), None)
  }

  // Host name, system and version, as gethostname and uname give them; the host id is "1".
  lemma HostInfoServed(request: seq<byte>, b: Before, sys: System)
    requires Handles(request, b, sys) && NumberIn(request) == 0x100
    ensures EffectOf(request, b, sys) ==
            match sys.host
            case None => Told(request, b, sys, 1, Unit)
            case Some((name, system, version)) =>
              Told(request, b, sys, 0, Items([N(0), Octets(Ascii(name)), Octets(Ascii(system)), Octets(Ascii(version)),
                                              Octets(Ascii("1"))]))
  {
    ConfigDecided(request, b, sys, 0x100);
  }

  // The address types LOCAL and TCP.
  lemma ConnectionTypeServed(request: seq<byte>, b: Before, sys: System)
    requires Handles(request, b, sys) && NumberIn(request) == 0x102
    ensures EffectOf(request, b, sys) == Told(request, b, sys, 0, Items([N(0), Items([N(0), N(1)])]))
  {
    ConfigDecided(request, b, sys, 0x102);
  }

  const AUTH := [Num(Int)]

  // Authentication NONE needs no challenge; no other is supported.
  lemma AuthAttrServed(request: seq<byte>, b: Before, sys: System)
    requires Handles(request, b, sys) && NumberIn(request) == 0x103
    ensures HasType(Struct(AUTH), sys.unset)
    ensures EffectOf(request, b, sys) ==
            if ArgIn(AUTH, request, sys.unset, 0).n != 0 then Told(request, b, sys, 1, Unit)
            else Told(request, b, sys, 0, Items([N(0), Choice(0, Unit)]))
  {
    ArgsAre(request, b, sys, 0x103, AUTH, 0);
    ConfigDecided(request, b, sys, 0x103);
  }

  // The twelve backup types: for each of four attributes, dump, tar and cpio without an environment.
  lemma ButypeInfoServed(request: seq<byte>, b: Before, sys: System)
    requires Handles(request, b, sys) && NumberIn(request) == 0x104
    ensures var types := ButypeInfos();
            EffectOf(request, b, sys) == Told(request, b, sys, 0, Items([N(0), Items(types)])) && |types| == 12
    ensures forall i, j :: 0 <= i < 4 && 0 <= j < 3 ==>
              ButypeInfos()[3 * i + j] ==
              Items([Octets(Ascii(["dump", "tar", "cpio"][j])), Items([]), N([0x2, 0x8, 0x20, 0x80][i])])
  {
    ConfigDecided(request, b, sys, 0x104);
    forall i, j | 0 <= i < 4 && 0 <= j < 3
      ensures ButypeInfos()[3 * i + j] ==
              Items([Octets(Ascii(["dump", "tar", "cpio"][j])), Items([]), N([0x2, 0x8, 0x20, 0x80][i])])
    {
      ButypeAt(i, j);
    }
  }

  lemma ButypeAt(i: nat, j: nat)
    requires i < 4 && j < 3
    ensures ButypeInfos()[3 * i + j] ==
            Items([Octets(Ascii(["dump", "tar", "cpio"][j])), Items([]), N([0x2, 0x8, 0x20, 0x80][i])])
  {
    assert (3 * i + j) / 3 == i && (3 * i + j) % 3 == j;
  }

  // The one file system that statvfs describes.
  lemma FsInfoServed(request: seq<byte>, b: Before, sys: System)
    requires Handles(request, b, sys) && NumberIn(request) == 0x105
    ensures EffectOf(request, b, sys) ==
            match sys.fs
            case None => Told(request, b, sys, 1, Unit)
            case Some(fs) => Told(request, b, sys, 0, Items([N(0), Items([fs])]))
  {
    ConfigDecided(request, b, sys, 0x105);
  }

  // One tape that rewinds, of 1GB.
  lemma TapeInfoServed(request: seq<byte>, b: Before, sys: System)
    requires Handles(request, b, sys) && NumberIn(request) == 0x106
    ensures var size := Items([Octets(Ascii("TAPE_SIZE")), Octets(Ascii("1GB"))]);
            var tape := Items([Octets(Ascii("/dev/tape0")), N(1), Items([size])]);
            var device := Items([Octets(Ascii("HP MSL6000 Tape")), Items([tape])]);
            EffectOf(request, b, sys) == Told(request, b, sys, 0, Items([N(0), Items([device])]))
  {
    ConfigDecided(request, b, sys, 0x106);
  }

  // The devices of /proc/scsi/scsi, if there are any.
  lemma ScsiInfoServed(request: seq<byte>, b: Before, sys: System)
    requires Handles(request, b, sys) && NumberIn(request) == 0x107
    ensures EffectOf(request, b, sys) ==
            if sys.devices == [] then Told(request, b, sys, 1, Unit)
            else Told(request, b, sys, 0, Items([N(0), Items(sys.devices)]))
  {
    ConfigDecided(request, b, sys, 0x107);
  }

  // Vendor, product, revision, and authentication NONE.
  lemma ServerInfoServed(request: seq<byte>, b: Before, sys: System)
    requires Handles(request, b, sys) && NumberIn(request) == 0x108
    ensures EffectOf(request, b, sys) ==
            Told(request, b, sys, 0, Items([N(0), Octets(Ascii("Red Hat, Inc.")), Octets(Ascii("NDMP Server")),
                                            Octets(Ascii("0.1")), Items([N(0)])]))
  {
    ConfigDecided(request, b, sys, 0x108);
  }

  // The fields of the replies, by the number of the message, and of the greeting.
  lemma ConfigFields()
    ensures BodySchema(0x100) == Some(Struct([Num(Int), Text, Text, Text, Text]))
    ensures BodySchema(0x102) == Some(Struct([Num(Int), Array(Num(Int))]))
    ensures BodySchema(0x103) ==
            Some(Struct([Num(Int), Union(Case(0, Void, Case(1, Void, Case(2, Opaque(64), NoArm))))]))
    ensures BodySchema(0x104) ==
            Some(Struct([Num(Int), Array(Struct([Text, Array(Struct([Text, Text])), Num(ULong)]))]))
    ensures BodySchema(0x108) == Some(Struct([Num(Int), Text, Text, Text, Array(Num(Int))]))
  {
  }

  lemma DeviceFields()
    ensures var quad := Struct([Num(ULong), Num(ULong)]);
            BodySchema(0x105) ==
            Some(Struct([Num(Int), Array(Struct([Num(ULong), Text, Text, Text, quad, quad, quad, quad, quad,
                                                 Array(Struct([Text, Text])), Text]))]))
    ensures var capability := Struct([Text, Num(ULong), Array(Struct([Text, Text]))]);
            BodySchema(0x106) == BodySchema(0x107) ==
            Some(Struct([Num(Int), Array(Struct([Text, Array(capability)]))]))
  {
  }

  lemma DataFields()
    ensures BodySchema(0x404) == Some(Struct([Num(Int), Array(Struct([Text, Text]))]))
    ensures BodySchema(0x409) == Some(Struct([Num(Int), CONNECT[0]]))
    ensures BodySchema(0x502) == Some(Struct([Num(Int), Num(UShort), Text]))
    ensures forall n :: n in {0x401, 0x402, 0x403, 0x407, 0x40A, 0x900} ==>
              BodySchema(n) == Some(Struct([Num(Int)]))
  {
  }

  // A client that sends the number of the greeting is greeted.
  lemma GreetingServed(request: seq<byte>, b: Before, sys: System)
    requires Handles(request, b, sys) && NumberIn(request) == 0xf001
    ensures EffectOf(request, b, sys) ==
            Effect(Some(Received(Header(b.sequence, sys.time, 0, 0x502, 0, 0), Some(Items([N(0), N(3), Octets([])])))),
                   AfterStates(b, b.states), None)
  {
    Matched(request, b, sys, 0xf001);
  }

  // Any other message is answered with error 1.
  lemma OtherServed(request: seq<byte>, b: Before, sys: System)
    requires Handles(request, b, sys)
    requires NumberIn(request) !in {0x100, 0x102, 0x103, 0x104, 0x105, 0x106, 0x107, 0x108, 0x400, 0x401, 0x402, 0x403,
                                    0x404, 0x407, 0x409, 0x40A, 0x900, 0x902, 0xf001}
    ensures EffectOf(request, b, sys) == Told(request, b, sys, 1, Unit)
  {
    ConfigDecided(request, b, sys, NumberIn(request));
  }
}
