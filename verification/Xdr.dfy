/** XDR (RFC 4506) for the constructs that `ndmp.x` uses: integers and enums (sections 4.1-4.3), fixed and variable
    opaque data and strings (4.9-4.11), variable arrays (4.13), structures (4.14) and unions (4.15).  A schema is a
    value of type Schema, so every theorem below is about every message of the protocol at once. */
module Xdr {
  import opened Common

  type byte = b: int | 0 <= b < 256

  // The C types that rpcgen gives to `u_long`, `u_short`, `u_char`, enums and `short`.
  // All travel as one 32-bit word; decoding keeps the low bits that fit the C type.
  datatype Number = ULong | UShort | UChar | Int | Short {
    function Modulus(): int {
      match this case ULong => TWO32 case Int => TWO32 case UShort => 0x1_0000 case Short => 0x1_0000 case UChar => 256
    }
    predicate Signed() { Int? || Short? }
    predicate Holds(n: int) {
      if Signed() then -(Modulus() / 2) <= n < Modulus() / 2 else 0 <= n < Modulus()
    }
    function ToWord(n: int): (w: int)
      requires Holds(n)
      ensures 0 <= w < TWO32 && FromWord(w) == n
    {
      LowBits(n, Modulus());
      if n < 0 then n + TWO32 else n
    }
    function FromWord(w: int): (n: int)
      requires 0 <= w < TWO32
      ensures Holds(n) && (n - w) % Modulus() == 0
    {
      var low := w % Modulus();
      Residue(w, Modulus());
      if Signed() && low >= Modulus() / 2 then low - Modulus() else low
    }
  }

  lemma LowBits(n: int, m: int)
    requires m == 0x100 || m == 0x1_0000 || m == TWO32
    ensures 0 <= n < m ==> n % m == n
    ensures -m <= n < 0 ==> (n + TWO32) % m == n + m
  {
  }

  lemma Residue(w: nat, m: int)
    requires m == 0x100 || m == 0x1_0000 || m == TWO32
    ensures (w % m - w) % m == 0 && (w % m - m - w) % m == 0
  {
  }

  datatype Schema =
    | Void
    | Num(number: Number)
    | Opaque(size: nat)           // opaque data[size]
    | Text                        // string<> and opaque<>
    | Array(elem: Schema)         // elem<>
    | Struct(fields: seq<Schema>)
    | Union(arms: Arms)

  // The cases of a union in order; NoArm ends a union without a default.
  datatype Arms = NoArm | Otherwise(other: Schema) | Case(tag: int, body: Schema, rest: Arms)

  datatype Value =
    | Unit
    | N(n: int)
    | Octets(bytes: seq<byte>)
    | Items(items: seq<Value>)               // an array or a structure
    | Choice(tag: int, body: Value)

  // A decoder either fails or yields a value and the bytes it did not consume.
  datatype Parsed<+T> = Fail | Got(value: T, rest: seq<byte>)

  // ---------------------------------------------------------------------------------------- words and padding

  function PutWord(w: int): (r: seq<byte>)
    requires 0 <= w < TWO32
    ensures |r| == 4 && GetWord(r) == w
  {
    var w1 := w / 256;
    var w2 := w1 / 256;
    [w2 / 256, w2 % 256, w1 % 256, w % 256]
  }

  function GetWord(b: seq<byte>): (w: int)
    requires |b| >= 4
    ensures 0 <= w < TWO32
  {
    ((b[0] as int * 256 + b[1]) * 256 + b[2]) * 256 + b[3]
  }

  function Padding(n: nat): (p: nat)
    ensures p < 4 && (n + p) % 4 == 0
  {
    (4 - n % 4) % 4
  }

  function Padded(data: seq<byte>): (r: seq<byte>)
    ensures |r| % 4 == 0 && data <= r
  {
    data + seq(Padding(|data|), _ => 0)
  }

  function Unpad(n: nat, b: seq<byte>): Parsed<Value> {
    if |b| < n + Padding(n) then Fail else Got(Octets(b[..n]), b[n + Padding(n)..])
  }

  // ------------------------------------------------------------------------------------------------- typing

  predicate HasType(s: Schema, v: Value)
    decreases s, 0
  {
    match s
    case Void => v.Unit?
    case Num(t) => v.N? && t.Holds(v.n)
    case Opaque(n) => v.Octets? && |v.bytes| == n
    case Text => v.Octets? && |v.bytes| < TWO32
    case Array(e) => v.Items? && |v.items| < TWO32 && HasItems(e, v.items)
    case Struct(fs) => v.Items? && HasFields(fs, v.items)
    case Union(arms) => v.Choice? && Int.Holds(v.tag) && HasArm(arms, v.tag, v.body)
  }

  predicate HasItems(e: Schema, vs: seq<Value>)
    decreases e, |vs|
  {
    vs == [] || (HasType(e, vs[0]) && HasItems(e, vs[1..]))
  }

  predicate HasFields(fs: seq<Schema>, vs: seq<Value>)
    decreases fs, 0
  {
    if fs == [] then vs == [] else vs != [] && HasType(fs[0], vs[0]) && HasFields(fs[1..], vs[1..])
  }

  predicate HasArm(arms: Arms, tag: int, v: Value)
    decreases arms, 0
  {
    match arms
    case NoArm => false
    case Otherwise(s) => HasType(s, v)
    case Case(t, s, rest) => if t == tag then HasType(s, v) else HasArm(rest, tag, v)
  }

  // ------------------------------------------------------------------------- size (xdr_sizeof) and encoding

  function Sizeof(s: Schema, v: Value): nat
    requires HasType(s, v)
    decreases s, 0
  {
    match s
    case Void => 0
    case Num(_) => 4
    case Opaque(n) => n + Padding(n)
    case Text => 4 + |v.bytes| + Padding(|v.bytes|)
    case Array(e) => 4 + SizeofItems(e, v.items)
    case Struct(fs) => SizeofFields(fs, v.items)
    case Union(arms) => 4 + SizeofArm(arms, v.tag, v.body)
  }

  function SizeofItems(e: Schema, vs: seq<Value>): nat
    requires HasItems(e, vs)
    decreases e, |vs|
  {
    if vs == [] then 0 else Sizeof(e, vs[0]) + SizeofItems(e, vs[1..])
  }

  function SizeofFields(fs: seq<Schema>, vs: seq<Value>): nat
    requires HasFields(fs, vs)
    decreases fs, 0
  {
    if fs == [] then 0 else Sizeof(fs[0], vs[0]) + SizeofFields(fs[1..], vs[1..])
  }

  function SizeofArm(arms: Arms, tag: int, v: Value): nat
    requires HasArm(arms, tag, v)
    decreases arms, 0
  {
    match arms
    case Otherwise(s) => Sizeof(s, v)
    case Case(t, s, rest) => if t == tag then Sizeof(s, v) else SizeofArm(rest, tag, v)
  }

  // The encoding of a value is as long as its computed size, and a whole number of words.
  function Encode(s: Schema, v: Value): (r: seq<byte>)
    requires HasType(s, v)
    ensures |r| == Sizeof(s, v) && |r| % 4 == 0
    decreases s, 0
  {
    match s
    case Void => []
    case Num(t) => PutWord(t.ToWord(v.n))
    case Opaque(_) => Padded(v.bytes)
    case Text => Joined(PutWord(|v.bytes|), Padded(v.bytes))
    case Array(e) => Joined(PutWord(|v.items|), EncodeItems(e, v.items))
    case Struct(fs) => EncodeFields(fs, v.items)
    case Union(arms) => Joined(PutWord(Int.ToWord(v.tag)), EncodeArm(arms, v.tag, v.body))
  }

  // Whole words one after the other are whole words.
  function Joined(a: seq<byte>, b: seq<byte>): (r: seq<byte>)
    requires |a| % 4 == 0 && |b| % 4 == 0
    ensures r == a + b && |r| % 4 == 0
  {
    a + b
  }

  function EncodeItems(e: Schema, vs: seq<Value>): (r: seq<byte>)
    requires HasItems(e, vs)
    ensures |r| == SizeofItems(e, vs) && |r| % 4 == 0
    decreases e, |vs|
  {
    if vs == [] then [] else Joined(Encode(e, vs[0]), EncodeItems(e, vs[1..]))
  }

  function EncodeFields(fs: seq<Schema>, vs: seq<Value>): (r: seq<byte>)
    requires HasFields(fs, vs)
    ensures |r| == SizeofFields(fs, vs) && |r| % 4 == 0
    decreases fs, 0
  {
    if fs == [] then [] else Joined(Encode(fs[0], vs[0]), EncodeFields(fs[1..], vs[1..]))
  }

  function EncodeArm(arms: Arms, tag: int, v: Value): (r: seq<byte>)
    requires HasArm(arms, tag, v)
    ensures |r| == SizeofArm(arms, tag, v) && |r| % 4 == 0
    decreases arms, 0
  {
    match arms
    case Otherwise(s) => Encode(s, v)
    case Case(t, s, rest) => if t == tag then Encode(s, v) else EncodeArm(rest, tag, v)
  }

  // ----------------------------------------------------------------------------------------------- decoding

  function Decode(s: Schema, b: seq<byte>): Parsed<Value>
    decreases s, 0
  {
    match s
    case Void => Got(Unit, b)
    case Opaque(n) => Unpad(n, b)
    case Struct(fs) =>
      (match DecodeFields(fs, b) case Fail => Fail case Got(vs, rest) => Got(Items(vs), rest))
    case Num(t) => if |b| < 4 then Fail else Got(N(t.FromWord(GetWord(b))), b[4..])
    case Text => if |b| < 4 then Fail else Unpad(GetWord(b), b[4..])
    case Array(e) =>
      if |b| < 4 then Fail else
      (match DecodeItems(e, GetWord(b), b[4..]) case Fail => Fail case Got(vs, rest) => Got(Items(vs), rest))
    case Union(arms) =>
      if |b| < 4 then Fail else
      var tag := Int.FromWord(GetWord(b));
      (match DecodeArm(arms, tag, b[4..]) case Fail => Fail case Got(v, rest) => Got(Choice(tag, v), rest))
  }

  function DecodeItems(e: Schema, n: nat, b: seq<byte>): Parsed<seq<Value>>
    decreases e, n
  {
    if n == 0 then Got([], b) else
    match Decode(e, b)
    case Fail => Fail
    case Got(v, b') =>
      match DecodeItems(e, n - 1, b')
      case Fail => Fail
      case Got(vs, rest) => Got([v] + vs, rest)
  }

  function DecodeFields(fs: seq<Schema>, b: seq<byte>): Parsed<seq<Value>>
    decreases fs, 0
  {
    if fs == [] then Got([], b) else
    match Decode(fs[0], b)
    case Fail => Fail
    case Got(v, b') =>
      match DecodeFields(fs[1..], b')
      case Fail => Fail
      case Got(vs, rest) => Got([v] + vs, rest)
  }

  function DecodeArm(arms: Arms, tag: int, b: seq<byte>): Parsed<Value>
    decreases arms, 0
  {
    match arms
    case NoArm => Fail
    case Otherwise(s) => Decode(s, b)
    case Case(t, s, rest) => if t == tag then Decode(s, b) else DecodeArm(rest, tag, b)
  }

  // --------------------------------------------------------------------------------------------- round trip

  lemma WordThen(w: int, tail: seq<byte>)
    requires 0 <= w < TWO32
    ensures GetWord(PutWord(w) + tail) == w && (PutWord(w) + tail)[4..] == tail
  {
    assert (PutWord(w) + tail)[..4] == PutWord(w);
  }

  lemma UnpadPadded(data: seq<byte>, tail: seq<byte>)
    ensures Unpad(|data|, Padded(data) + tail) == Got(Octets(data), tail)
  {
    var b := Padded(data) + tail;
    assert b[..|data|] == data && b[|data| + Padding(|data|)..] == tail;
  }

  // Decoding what was encoded, whatever bytes follow, gives back the value and exactly those bytes.
  lemma {:induction false} RoundTrip(s: Schema, v: Value, tail: seq<byte>)
    requires HasType(s, v)
    ensures Decode(s, Encode(s, v) + tail) == Got(v, tail)
    decreases s, 0
  {
    match s {
      case Void => assert Encode(s, v) + tail == tail;
      case Num(t) => WordThen(t.ToWord(v.n), tail);
      case Opaque(_) => UnpadPadded(v.bytes, tail);
      case Text => RoundTripText(v.bytes, tail);
      case Array(e) => RoundTripArray(e, v.items, tail);
      case Struct(fs) => RoundTripFields(fs, v.items, tail);
      case Union(arms) => RoundTripUnion(arms, v.tag, v.body, tail);
    }
  }

  lemma RoundTripText(data: seq<byte>, tail: seq<byte>)
    requires |data| < TWO32
    ensures Decode(Text, Encode(Text, Octets(data)) + tail) == Got(Octets(data), tail)
  {
    WordThen(|data|, Padded(data) + tail);
    UnpadPadded(data, tail);
    assert PutWord(|data|) + Padded(data) + tail == PutWord(|data|) + (Padded(data) + tail);
  }

  lemma {:induction false} RoundTripArray(e: Schema, vs: seq<Value>, tail: seq<byte>)
    requires HasType(Array(e), Items(vs))
    ensures Decode(Array(e), Encode(Array(e), Items(vs)) + tail) == Got(Items(vs), tail)
    decreases e, |vs| + 1
  {
    var body := EncodeItems(e, vs);
    WordThen(|vs|, body + tail);
    RoundTripItems(e, vs, tail);
    assert PutWord(|vs|) + body + tail == PutWord(|vs|) + (body + tail);
  }

  lemma {:induction false} RoundTripUnion(arms: Arms, tag: int, v: Value, tail: seq<byte>)
    requires HasType(Union(arms), Choice(tag, v))
    ensures Decode(Union(arms), Encode(Union(arms), Choice(tag, v)) + tail) == Got(Choice(tag, v), tail)
    decreases arms, 1
  {
    var body := EncodeArm(arms, tag, v);
    WordThen(Int.ToWord(tag), body + tail);
    RoundTripArm(arms, tag, v, tail);
    assert PutWord(Int.ToWord(tag)) + body + tail == PutWord(Int.ToWord(tag)) + (body + tail);
  }

  lemma {:induction false} RoundTripItems(e: Schema, vs: seq<Value>, tail: seq<byte>)
    requires HasItems(e, vs)
    ensures DecodeItems(e, |vs|, EncodeItems(e, vs) + tail) == Got(vs, tail)
    decreases e, |vs|
  {
    if vs == [] {
      assert EncodeItems(e, vs) + tail == tail;
    } else {
      var more := EncodeItems(e, vs[1..]) + tail;
      assert EncodeItems(e, vs) + tail == Encode(e, vs[0]) + more;
      RoundTrip(e, vs[0], more);
      RoundTripItems(e, vs[1..], tail);
      assert [vs[0]] + vs[1..] == vs;
    }
  }

  lemma {:induction false} RoundTripFields(fs: seq<Schema>, vs: seq<Value>, tail: seq<byte>)
    requires HasFields(fs, vs)
    ensures DecodeFields(fs, EncodeFields(fs, vs) + tail) == Got(vs, tail)
    decreases fs, 0
  {
    if fs == [] {
      assert EncodeFields(fs, vs) + tail == tail;
    } else {
      var more := EncodeFields(fs[1..], vs[1..]) + tail;
      assert EncodeFields(fs, vs) + tail == Encode(fs[0], vs[0]) + more;
      RoundTrip(fs[0], vs[0], more);
      RoundTripFields(fs[1..], vs[1..], tail);
      assert [vs[0]] + vs[1..] == vs;
    }
  }

  lemma {:induction false} RoundTripArm(arms: Arms, tag: int, v: Value, tail: seq<byte>)
    requires HasArm(arms, tag, v)
    ensures DecodeArm(arms, tag, EncodeArm(arms, tag, v) + tail) == Got(v, tail)
    decreases arms, 0
  {
    match arms {
      case Otherwise(s) => RoundTrip(s, v, tail);
      case Case(t, s, rest) =>
        if t == tag { RoundTrip(s, v, tail); } else { RoundTripArm(rest, tag, v, tail); }
    }
  }

  // Two values of one schema whose encodings start the same bytes are the same value: the encoding is prefix-free.
  lemma PrefixFree(s: Schema, v: Value, v': Value, tail: seq<byte>, tail': seq<byte>)
    requires HasType(s, v) && HasType(s, v')
    requires Encode(s, v) + tail == Encode(s, v') + tail'
    ensures v == v' && tail == tail'
  {
    RoundTrip(s, v, tail);
    RoundTrip(s, v', tail');
  }

  // ---------------------------------------------------------------------------------- soundness of decoding

  lemma DropDrop(b: seq<byte>, i: nat, j: nat)
    requires i + j <= |b|
    ensures b[i..][j..] == b[i + j..]
  {
  }

  // A field or an item more makes a value longer by its size.
  lemma FieldsCons(f: Schema, v: Value, fs: seq<Schema>, vs: seq<Value>)
    requires HasType(f, v) && HasFields(fs, vs)
    ensures HasFields([f] + fs, [v] + vs)
    ensures SizeofFields([f] + fs, [v] + vs) == Sizeof(f, v) + SizeofFields(fs, vs)
  {
    assert ([f] + fs)[1..] == fs && ([v] + vs)[1..] == vs;
  }

  lemma ItemsCons(e: Schema, v: Value, vs: seq<Value>)
    requires HasType(e, v) && HasItems(e, vs)
    ensures HasItems(e, [v] + vs) && SizeofItems(e, [v] + vs) == Sizeof(e, v) + SizeofItems(e, vs)
  {
    assert ([v] + vs)[1..] == vs;
  }

  // Whatever the bytes, a decoded value has the schema's type, and the decoder consumed exactly the prefix whose
  // length is the value's size.
  lemma {:induction false} DecodeSound(s: Schema, b: seq<byte>)
    ensures var r := Decode(s, b);
            r.Got? ==> HasType(s, r.value) && |b| >= Sizeof(s, r.value) && r.rest == b[Sizeof(s, r.value)..]
    decreases s, 0
  {
    match s {
      case Void =>
      case Opaque(_) =>
      case Struct(fs) => DecodeFieldsSound(fs, b);
      case Num(_) =>
      case Text =>
      case Array(e) => if |b| >= 4 { DecodeItemsSound(e, GetWord(b), b[4..]); }
      case Union(arms) => if |b| >= 4 { DecodeArmSound(arms, Int.FromWord(GetWord(b)), b[4..]); }
    }
  }

  lemma {:induction false} DecodeItemsSound(e: Schema, n: nat, b: seq<byte>)
    ensures var r := DecodeItems(e, n, b);
            r.Got? ==> |r.value| == n && HasItems(e, r.value) &&
                       |b| >= SizeofItems(e, r.value) && r.rest == b[SizeofItems(e, r.value)..]
    decreases e, n
  {
    if n > 0 {
      DecodeSound(e, b);
      var r := Decode(e, b);
      if r.Got? {
        DecodeItemsSound(e, n - 1, r.rest);
        var r' := DecodeItems(e, n - 1, r.rest);
        if r'.Got? {
          ItemsCons(e, r.value, r'.value);
          DropDrop(b, Sizeof(e, r.value), SizeofItems(e, r'.value));
        }
      }
    }
  }

  lemma {:induction false} DecodeFieldsSound(fs: seq<Schema>, b: seq<byte>)
    ensures var r := DecodeFields(fs, b);
            r.Got? ==> HasFields(fs, r.value) &&
                       |b| >= SizeofFields(fs, r.value) && r.rest == b[SizeofFields(fs, r.value)..]
    decreases fs, 0
  {
    if fs != [] {
      DecodeSound(fs[0], b);
      var r := Decode(fs[0], b);
      if r.Got? {
        DecodeFieldsSound(fs[1..], r.rest);
        var r' := DecodeFields(fs[1..], r.rest);
        if r'.Got? {
          FieldsCons(fs[0], r.value, fs[1..], r'.value);
          assert [fs[0]] + fs[1..] == fs;
          DropDrop(b, Sizeof(fs[0], r.value), SizeofFields(fs[1..], r'.value));
        }
      }
    }
  }

  lemma {:induction false} DecodeArmSound(arms: Arms, tag: int, b: seq<byte>)
    ensures var r := DecodeArm(arms, tag, b);
            r.Got? ==> HasArm(arms, tag, r.value) && |b| >= SizeofArm(arms, tag, r.value) &&
                       r.rest == b[SizeofArm(arms, tag, r.value)..]
    decreases arms, 0
  {
    match arms {
      case NoArm =>
      case Otherwise(s) => DecodeSound(s, b);
      case Case(t, s, rest) => if t == tag { DecodeSound(s, b); } else { DecodeArmSound(rest, tag, b); }
    }
  }
}
