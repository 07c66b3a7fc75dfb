/** The replies of the handlers as bytes: their bodies, that each has the type of its message, and how long they are
    (`ndmp_config.c`, `ndmp_data.c`). */
module Replies {
  import opened Common
  import opened Xdr
  import opened RecordMark
  import opened Messages
  import opened DataStates

  const MAX_MESSAGE_SIZE := 2048

  // C strings as XDR carries them.
  function Ascii(s: string): (b: seq<byte>)
    ensures |b| == |s|
  {
    seq(|s|, i requires 0 <= i < |s| => s[i] as int % 256)
  }

  function Chars(b: seq<byte>): (s: string)
    ensures |s| == |b| && Ascii(s) == b
  {
    seq(|b|, i requires 0 <= i < |b| => b[i] as char)
  }

  function TextValue(s: string): Value { Octets(Ascii(s)) }

  // --------------------------------------------------------------------------------------------- environments

  // A structure of two fields: type and size.
  lemma Struct2(a: Schema, b: Schema, x: Value, y: Value)
    requires HasType(a, x) && HasType(b, y)
    ensures HasType(Struct([a, b]), Items([x, y]))
    ensures Sizeof(Struct([a, b]), Items([x, y])) == Sizeof(a, x) + Sizeof(b, y)
  {
    FieldsCons(b, y, [], []);
    FieldsCons(a, x, [b], [y]);
    assert [a] + [b] == [a, b] && [x] + [y] == [x, y] && [b] + [] == [b] && [y] + [] == [y];
  }

  predicate EnvFits(env: seq<Pval>) {
    |env| < TWO32 && forall i :: 0 <= i < |env| ==> |env[i].name| < TWO32 && |env[i].value| < TWO32
  }

  function PvalValue(p: Pval): Value { Items([TextValue(p.name), TextValue(p.value)]) }

  function EnvValue(env: seq<Pval>): (v: Value)
    ensures v.Items? && |v.items| == |env| && forall i :: 0 <= i < |env| ==> v.items[i] == PvalValue(env[i])
  {
    Items(seq(|env|, i requires 0 <= i < |env| => PvalValue(env[i])))
  }

  lemma PvalTyped(p: Pval)
    requires |p.name| < TWO32 && |p.value| < TWO32
    ensures HasType(PVAL, PvalValue(p))
    ensures Sizeof(PVAL, PvalValue(p)) == 8 + |p.name| + Padding(|p.name|) + |p.value| + Padding(|p.value|)
  {
    Struct2(Text, Text, TextValue(p.name), TextValue(p.value));
  }

  lemma EnvTyped(env: seq<Pval>)
    requires EnvFits(env)
    ensures HasType(Array(PVAL), EnvValue(env))
  {
    forall i | 0 <= i < |env| ensures HasType(PVAL, EnvValue(env).items[i]) {
      PvalTyped(env[i]);
    }
    ItemsTyped(PVAL, EnvValue(env).items);
  }

  // What a request's environment array means to the handlers, and that it is given back unchanged.
  function PvalsOf(v: Value): (env: seq<Pval>)
    requires HasType(Array(PVAL), v)
    ensures EnvFits(env) && EnvValue(env) == v
  {
    PvalsTyped(v.items);
    var env := seq(|v.items|, i requires 0 <= i < |v.items| =>
                     Pval(Chars(v.items[i].items[0].bytes), Chars(v.items[i].items[1].bytes)));
    assert forall i :: 0 <= i < |env| ==> EnvValue(env).items[i] == v.items[i];
    env
  }

  ghost predicate IsPval(v: Value) {
    && v.Items? && |v.items| == 2 && v.items[0].Octets? && v.items[1].Octets?
    && v.items == [v.items[0], v.items[1]]
    && |v.items[0].bytes| < TWO32 && |v.items[1].bytes| < TWO32
  }

  lemma {:induction false} PvalsTyped(vs: seq<Value>)
    requires HasItems(PVAL, vs)
    ensures forall i :: 0 <= i < |vs| ==> IsPval(vs[i])
  {
    if vs != [] {
      TypedFields(PVAL.fields, vs[0].items);
      assert HasType(Text, vs[0].items[0]) && HasType(Text, vs[0].items[1]);
      PvalsTyped(vs[1..]);
      assert forall i :: 0 < i < |vs| ==> vs[i] == vs[1..][i - 1];
    }
  }

  // ---------------------------------------------------------------------------------------------- reply bodies

  lemma ErrorBody()
    ensures HasType(ERROR_REPLY, Items([N(0)])) && Sizeof(ERROR_REPLY, Items([N(0)])) == 4
  {
    FieldsCons(ENUM, N(0), [], []);
    assert [ENUM] + [] == ERROR_REPLY.fields && [N(0)] + [] == [N(0)];
  }

  function EnvBody(env: seq<Pval>): Value { Items([N(0), EnvValue(env)]) }

  lemma EnvBodyTyped(env: seq<Pval>)
    requires EnvFits(env)
    ensures HasType(ENV_REPLY, EnvBody(env)) && HasType(Array(PVAL), EnvValue(env))
    ensures Sizeof(ENV_REPLY, EnvBody(env)) == 4 + Sizeof(Array(PVAL), EnvValue(env))
  {
    EnvTyped(env);
    Struct2(ENUM, Array(PVAL), N(0), EnvValue(env));
  }

  lemma OneMore(n: nat, size: nat)
    ensures (n + 1) * size == n * size + size
  {
  }

  // Array elements of bounded size make an array of bounded size.
  lemma {:induction false} ItemsBound(e: Schema, vs: seq<Value>, bound: nat)
    requires HasItems(e, vs) && forall i :: 0 <= i < |vs| ==> HasType(e, vs[i]) && Sizeof(e, vs[i]) <= bound
    ensures SizeofItems(e, vs) <= |vs| * bound
  {
    if vs != [] {
      ItemsBound(e, vs[1..], bound);
      OneMore(|vs| - 1, bound);
    }
  }

  lemma {:induction false} FieldsBound(fs: seq<Schema>, vs: seq<Value>, bound: nat)
    requires HasFields(fs, vs) && |fs| == |vs|
    requires forall i :: 0 <= i < |fs| ==> HasType(fs[i], vs[i]) && Sizeof(fs[i], vs[i]) <= bound
    ensures SizeofFields(fs, vs) <= |fs| * bound
  {
    if fs != [] {
      FieldsBound(fs[1..], vs[1..], bound);
      OneMore(|fs| - 1, bound);
    }
  }

  // What a GET_ENV reply has room for, and so what an environment may take: what a request of the same size brings.
  const ENV_SIZE := MAX_MESSAGE_SIZE - 4 - HEADER_SIZE - 4

  predicate EnvRoom(env: seq<Pval>) {
    EnvFits(env) && (EnvTyped(env); Sizeof(Array(PVAL), EnvValue(env)) <= ENV_SIZE)
  }

  // The environment that arrives in a START_BACKUP request of at most 2048 bytes has room in a reply of as many: the
  // name of the backup type takes as much as the reply's error.
  lemma RequestEnvRoom(b: seq<byte>, v: Value, rest: seq<byte>)
    requires |b| <= MAX_MESSAGE_SIZE - 4 - HEADER_SIZE && Decode(Struct([Text, Array(PVAL)]), b) == Got(v, rest)
    ensures HasType(Struct([Text, Array(PVAL)]), v) && |v.items| == 2 && HasType(Array(PVAL), v.items[1])
    ensures EnvRoom(PvalsOf(v.items[1]))
  {
    DecodeSound(Struct([Text, Array(PVAL)]), b);
    TypedFields([Text, Array(PVAL)], v.items);
    Struct2(Text, Array(PVAL), v.items[0], v.items[1]);
    assert v.items == [v.items[0], v.items[1]];
  }

  lemma SmallEnvRoom(env: seq<Pval>)
    requires |env| <= 8 && forall i :: 0 <= i < |env| ==> |env[i].name| < 64 && |env[i].value| < 64
    ensures EnvRoom(env)
  {
    SmallEnv(env);
  }

  // The handlers' assumption of at most 8 pairs of strings under 64 characters keeps a GET_ENV reply, framed, within
  // 1124 bytes, and so within the reply buffer.
  lemma EnvReplyBound(h: Header, env: seq<Pval>)
    requires h.Fits() && h.message == 0x404 && h.error == 0
    requires |env| <= 8 && forall i :: 0 <= i < |env| ==> |env[i].name| < 64 && |env[i].value| < 64
    ensures EnvFits(env) && Sendable(h.message, Outcome(0, EnvBody(env)))
    ensures |MessageBytes(h, EnvBody(env))| <= 1120
    ensures |Frame(MessageBytes(h, EnvBody(env)))| <= 1124 <= MAX_MESSAGE_SIZE
  {
    EnvBodyTyped(env);
    SmallEnv(env);
  }

  lemma SmallEnv(env: seq<Pval>)
    requires |env| <= 8 && forall i :: 0 <= i < |env| ==> |env[i].name| < 64 && |env[i].value| < 64
    ensures EnvFits(env) && HasType(Array(PVAL), EnvValue(env)) && Sizeof(Array(PVAL), EnvValue(env)) <= 4 + 8 * 136
  {
    EnvTyped(env);
    var vs := EnvValue(env).items;
    forall i | 0 <= i < |vs| ensures HasType(PVAL, vs[i]) && Sizeof(PVAL, vs[i]) <= 136 { SmallPval(env[i]); }
    ItemsBound(PVAL, vs, 136);
  }

  lemma SmallPval(p: Pval)
    requires |p.name| < 64 && |p.value| < 64
    ensures HasType(PVAL, PvalValue(p)) && Sizeof(PVAL, PvalValue(p)) <= 136
  {
    PvalTyped(p);
    PaddedUnder64(|p.name|);
    PaddedUnder64(|p.value|);
  }

  lemma PaddedUnder64(n: nat)
    requires n < 64
    ensures n + Padding(n) <= 64
  {
  }

  // ----------------------------------------------------------------------------------------- backup type reply

  function ButypeName(k: nat): string { if k % 3 == 0 then "dump" else if k % 3 == 1 then "tar" else "cpio" }

  // NDMP_BUTYPE_BACKUP_FILELIST, _DIRECT, _INCREMENTAL, _UTF8
  const BU_TYPES: seq<int> := [0x0002, 0x0008, 0x0020, 0x0080]

  function Butype(name: string, attr: int): Value { Items([TextValue(name), Items([]), N(attr)]) }

  // Fills twelve entries, three names for each of the four attributes.
  method ButypeInfo() returns (infos: array<Value>)
    ensures fresh(infos) && infos.Length == 12
    ensures forall k :: 0 <= k < 12 ==> infos[k] == Butype(ButypeName(k), BU_TYPES[k / 3])
  {
    var numAttrs := 4;
    infos := new Value[3 * numAttrs](_ => Unit);
    var i := 0;
    while i < 3 * numAttrs
      invariant 0 <= i <= 12 && i % 3 == 0
      invariant forall k :: 0 <= k < i ==> infos[k] == Butype(ButypeName(k), BU_TYPES[k / 3])
    {
      infos[i] := Butype("dump", BU_TYPES[i / 3]);
      infos[i + 1] := Butype("tar", BU_TYPES[i / 3]);
      infos[i + 2] := Butype("cpio", BU_TYPES[i / 3]);
      i := i + 3;
    }
  }

  function ButypeInfos(): (vs: seq<Value>)
    ensures |vs| == 12 && forall k :: 0 <= k < 12 ==> vs[k] == Butype(ButypeName(k), BU_TYPES[k / 3])
  {
    seq(12, k requires 0 <= k < 12 => Butype(ButypeName(k), BU_TYPES[k / 3]))
  }

  lemma ButypeTyped(k: nat)
    requires k < 12
    ensures var v := Butype(ButypeName(k), BU_TYPES[k / 3]); HasType(BUTYPE, v) && Sizeof(BUTYPE, v) == 16
  {
    var v := Butype(ButypeName(k), BU_TYPES[k / 3]);
    var name, attr := v.items[0], v.items[2];
    Struct2(Array(PVAL), U_LONG, Items([]), attr);
    FieldsCons(Text, name, [Array(PVAL), U_LONG], [Items([]), attr]);
    assert [Text] + [Array(PVAL), U_LONG] == BUTYPE.fields && [name] + [Items([]), attr] == v.items;
  }

  lemma {:induction false} ItemsSize(e: Schema, vs: seq<Value>, size: nat)
    requires forall i :: 0 <= i < |vs| ==> HasType(e, vs[i]) && Sizeof(e, vs[i]) == size
    ensures HasItems(e, vs) && SizeofItems(e, vs) == |vs| * size
  {
    if vs != [] {
      var rest := vs[1..];
      assert forall i :: 0 <= i < |rest| ==> rest[i] == vs[i + 1];
      ItemsSize(e, rest, size);
      OneMore(|rest|, size);
    }
  }

  // The twelve-entry reply is 224 bytes before framing.
  lemma ButypeReplySize(h: Header)
    requires h.Fits() && h.message == 0x104 && h.error == 0
    ensures var body := Items([N(0), Items(ButypeInfos())]);
            Sendable(h.message, Outcome(0, body)) && |MessageBytes(h, body)| == 224
  {
    forall k | 0 <= k < 12 ensures HasType(BUTYPE, ButypeInfos()[k]) && Sizeof(BUTYPE, ButypeInfos()[k]) == 16 {
      ButypeTyped(k);
    }
    ItemsSize(BUTYPE, ButypeInfos(), 16);
    Struct2(ENUM, Array(BUTYPE), N(0), Items(ButypeInfos()));
  }
}
