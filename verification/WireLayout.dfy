/** What stands where on the wire, told without the decoders: RFC 4506 sends the most significant byte first (section
    4.1), strings and arrays behind their length (4.11, 4.13), fields and items one after the other (4.13, 4.14), unions
    behind their tag (4.15), and zeros up to the next word (section 3).  The mark of a record (section 11 of RFC 5531)
    and the words of a header are at fixed places. */
module WireLayout {
  import opened Common
  import opened Xdr
  import opened RecordMark
  import opened Messages
  import opened Replies

  // The number that four bytes are, the first one counting most.
  function Positional(b: seq<byte>): (r: int)
    requires |b| == 4
    ensures 0 <= r < TWO32
  {
    0x100_0000 * b[0] as int + 0x1_0000 * b[1] as int + 0x100 * b[2] as int + b[3] as int
  }

  lemma WordIsPositional(w: int)
    requires 0 <= w < TWO32
    ensures Positional(PutWord(w)) == w
  {
  }

  // The k-th word of some bytes.
  function WordIn(b: seq<byte>, k: nat): (r: int)
    requires 4 * k + 4 <= |b|
    ensures 0 <= r < TWO32
  {
    Positional(b[4 * k..4 * k + 4])
  }

  lemma GetIsPositional(b: seq<byte>)
    requires |b| >= 4
    ensures GetWord(b) == Positional(b[..4])
  {
  }

  // The first byte in which two words differ decides.
  predicate Below(a: seq<byte>, b: seq<byte>)
    requires |a| == |b|
  {
    a != [] && (a[0] < b[0] || (a[0] == b[0] && Below(a[1..], b[1..])))
  }

  lemma BelowIff(a: seq<byte>, b: seq<byte>)
    requires |a| == |b| == 4
    ensures Below(a, b) <==> Positional(a) < Positional(b)
  {
    var a1, b1 := a[1..], b[1..];
    var a2, b2 := a1[1..], b1[1..];
    assert Below(a2[1..], b2[1..]) <==> a[3] < b[3];
    assert Below(a2, b2) <==> a[2] < b[2] || (a[2] == b[2] && a[3] < b[3]);
    assert Below(a1, b1) <==> a[1] < b[1] || (a[1] == b[1] && Below(a2, b2));
  }

  // Words compare as their bytes do.
  lemma WordOrder(v: int, w: int)
    requires 0 <= v < TWO32 && 0 <= w < TWO32
    ensures v < w <==> Below(PutWord(v), PutWord(w))
  {
    WordIsPositional(v);
    WordIsPositional(w);
    BelowIff(PutWord(v), PutWord(w));
  }

  // A number of any C type travels as its remainder modulo 2^32: the two's complement word of a negative one.
  lemma NumberWord(t: Number, n: int)
    requires t.Holds(n)
    ensures Positional(Encode(Num(t), N(n))) == n % TWO32
  {
    WordIsPositional(t.ToWord(n));
  }

  // ----------------------------------------------------------------------------------------------- composition

  // Data, then zeros up to the next multiple of four.
  lemma PaddedLayout(data: seq<byte>)
    ensures var r := Padded(data);
            r[..|data|] == data && |r| < |data| + 4 && forall i :: |data| <= i < |r| ==> r[i] == 0
  {
  }

  lemma TextLayout(data: seq<byte>)
    requires |data| < TWO32
    ensures var r := Encode(Text, Octets(data));
            Positional(r[..4]) == |data| && r[4..4 + |data|] == data && |r| < |data| + 8 &&
            forall i :: 4 + |data| <= i < |r| ==> r[i] == 0
  {
    WordIsPositional(|data|);
    var r := Encode(Text, Octets(data));
    assert r[..4] == PutWord(|data|) && r[4..] == Padded(data);
    assert r[4..4 + |data|] == r[4..][..|data|];
    forall i | 4 + |data| <= i < |r| ensures r[i] == 0 { assert r[i] == r[4..][i - 4]; }
  }

  // A C string goes byte by byte, and is read back from its bytes.
  lemma CharsLayout(s: string)
    requires forall i :: 0 <= i < |s| ==> s[i] as int < 256
    ensures |Ascii(s)| == |s| && forall i :: 0 <= i < |s| ==> Ascii(s)[i] == s[i] as int
    ensures Chars(Ascii(s)) == s
  {
    assert forall i :: 0 <= i < |s| ==> Chars(Ascii(s))[i] == s[i];
  }

  // What stands in the padding does not matter to the one who reads.
  lemma AnyPadding(data: seq<byte>, pad: seq<byte>, tail: seq<byte>)
    requires |data| < TWO32 && |pad| == Padding(|data|)
    ensures Decode(Text, PutWord(|data|) + (data + pad + tail)) == Got(Octets(data), tail)
  {
    var b := data + pad + tail;
    WordThen(|data|, b);
    assert b[..|data|] == data && b[|data| + Padding(|data|)..] == tail;
  }

  // The number of items first, then the items.
  lemma ArrayLayout(e: Schema, vs: seq<Value>)
    requires HasType(Array(e), Items(vs))
    ensures var r := Encode(Array(e), Items(vs)); Positional(r[..4]) == |vs| && r[4..] == EncodeItems(e, vs)
  {
    WordIsPositional(|vs|);
    assert Encode(Array(e), Items(vs))[..4] == PutWord(|vs|);
  }

  lemma UnionLayout(arms: Arms, tag: int, v: Value)
    requires HasType(Union(arms), Choice(tag, v))
    ensures var r := Encode(Union(arms), Choice(tag, v));
            Positional(r[..4]) == tag % TWO32 && r[4..] == EncodeArm(arms, tag, v)
  {
    WordIsPositional(Int.ToWord(tag));
    assert Encode(Union(arms), Choice(tag, v))[..4] == PutWord(Int.ToWord(tag));
  }

  // Where b holds s from position i on.
  predicate Stands(s: seq<byte>, b: seq<byte>, i: nat) { i + |s| <= |b| && b[i..i + |s|] == s }

  lemma StandsFirst(s: seq<byte>, b: seq<byte>)
    ensures Stands(s, s + b, 0)
  {
    assert (s + b)[..|s|] == s;
  }

  lemma StandsBehind(s: seq<byte>, a: seq<byte>, b: seq<byte>, i: nat)
    requires Stands(s, b, i)
    ensures Stands(s, a + b, |a| + i)
  {
    assert (a + b)[|a| + i..|a| + i + |s|] == b[i..i + |s|];
  }

  lemma FieldsBefore(fs: seq<Schema>, vs: seq<Value>, k: nat)
    requires HasFields(fs, vs) && 0 < k <= |fs| && 0 < |vs| && k - 1 <= |vs[1..]|
    requires HasFields(fs[1..][..k - 1], vs[1..][..k - 1])
    ensures HasFields(fs[..k], vs[..k])
    ensures SizeofFields(fs[..k], vs[..k]) ==
            Sizeof(fs[0], vs[0]) + SizeofFields(fs[1..][..k - 1], vs[1..][..k - 1])
  {
    FieldsCons(fs[0], vs[0], fs[1..][..k - 1], vs[1..][..k - 1]);
    assert fs[..k] == [fs[0]] + fs[1..][..k - 1] && vs[..k] == [vs[0]] + vs[1..][..k - 1];
  }

  // The k-th field stands behind the sizes of those before it.
  lemma {:induction false} FieldAt(fs: seq<Schema>, vs: seq<Value>, k: nat)
    requires HasFields(fs, vs) && k < |fs|
    ensures k < |vs| && HasFields(fs[..k], vs[..k]) && HasType(fs[k], vs[k])
    ensures Stands(Encode(fs[k], vs[k]), EncodeFields(fs, vs), SizeofFields(fs[..k], vs[..k]))
  {
    var first, rest := Encode(fs[0], vs[0]), EncodeFields(fs[1..], vs[1..]);
    if k == 0 {
      StandsFirst(first, rest);
    } else {
      FieldAt(fs[1..], vs[1..], k - 1);
      FieldsBefore(fs, vs, k);
      StandsBehind(Encode(fs[k], vs[k]), first, rest, SizeofFields(fs[1..][..k - 1], vs[1..][..k - 1]));
    }
  }

  lemma ItemsBefore(e: Schema, vs: seq<Value>, k: nat)
    requires HasItems(e, vs) && 0 < k <= |vs| && HasItems(e, vs[1..][..k - 1])
    ensures HasItems(e, vs[..k])
    ensures SizeofItems(e, vs[..k]) == Sizeof(e, vs[0]) + SizeofItems(e, vs[1..][..k - 1])
  {
    ItemsCons(e, vs[0], vs[1..][..k - 1]);
    assert vs[..k] == [vs[0]] + vs[1..][..k - 1];
  }

  lemma StandsLater(e: Schema, vs: seq<Value>, s: seq<byte>, i: nat)
    requires HasItems(e, vs) && vs != [] && Stands(s, EncodeItems(e, vs[1..]), i)
    ensures Stands(s, EncodeItems(e, vs), Sizeof(e, vs[0]) + i)
  {
    var first, rest := Encode(e, vs[0]), EncodeItems(e, vs[1..]);
    StandsBehind(s, first, rest, i);
    assert EncodeItems(e, vs) == first + rest;
  }

  lemma FirstItem(e: Schema, vs: seq<Value>)
    requires HasItems(e, vs) && vs != []
    ensures HasItems(e, vs[..0]) && Stands(Encode(e, vs[0]), EncodeItems(e, vs), SizeofItems(e, vs[..0]))
  {
    assert vs[..0] == [];
    StandsFirst(Encode(e, vs[0]), EncodeItems(e, vs[1..]));
  }

  // And so does the k-th item.
  lemma {:induction false} ItemAt(e: Schema, vs: seq<Value>, k: nat)
    requires HasItems(e, vs) && k < |vs|
    ensures HasItems(e, vs[..k]) && HasType(e, vs[k])
    ensures Stands(Encode(e, vs[k]), EncodeItems(e, vs), SizeofItems(e, vs[..k]))
  {
    if k == 0 {
      FirstItem(e, vs);
    } else {
      ItemAt(e, vs[1..], k - 1);
      ItemsBefore(e, vs, k);
      StandsLater(e, vs, Encode(e, vs[k]), SizeofItems(e, vs[1..][..k - 1]));
    }
  }

  // -------------------------------------------------------------------------------------------- marks and headers

  // The mark: its top bit, and behind it the length of the message.
  lemma MarkBytes(message: seq<byte>)
    requires |message| < TWO31
    ensures var f := Frame(message);
            f[0] >= 0x80 && Positional([f[0] - 0x80, f[1], f[2], f[3]]) == |message| && f[4..] == message
  {
    var f := Frame(message);
    WordIsPositional(SetTopBit(|message|));
    assert f[..4] == PutWord(SetTopBit(|message|));
  }

  lemma {:induction false} WordAt(fs: seq<Schema>, vs: seq<Value>, k: nat)
    requires HasFields(fs, vs) && k < |fs| && forall i :: 0 <= i < |fs| ==> fs[i].Num?
    ensures k < |vs| && HasType(fs[k], vs[k]) && 4 * k + 4 <= |EncodeFields(fs, vs)|
    ensures WordIn(EncodeFields(fs, vs), k) == vs[k].n % TWO32
  {
    FieldAt(fs, vs, k);
    SizeofWords(fs[..k], vs[..k]);
    NumberWord(fs[k].number, vs[k].n);
  }

  // The six words of a header: sequence, time stamp, type, message, reply sequence and error.
  lemma HeaderWords(h: Header)
    requires h.Fits()
    ensures var b := EncodeHeader(h);
            && WordIn(b, 0) == h.sequence && WordIn(b, 1) == h.timeStamp && WordIn(b, 2) == h.messageType % TWO32
            && WordIn(b, 3) == h.message % TWO32 && WordIn(b, 4) == h.replySequence
            && WordIn(b, 5) == h.error % TWO32
  {
    HeaderTyped(h);
    var fs, vs := HEADER.fields, h.ToValue().items;
    forall k | 0 <= k < 6 ensures WordIn(EncodeFields(fs, vs), k) == vs[k].n % TWO32 {
      WordAt(fs, vs, k);
    }
    LongWord(h.sequence);
    LongWord(h.timeStamp);
    LongWord(h.replySequence);
  }

  lemma LongWord(n: int)
    requires ULong.Holds(n)
    ensures n % TWO32 == n
  {
  }

  lemma WordBehind(b: seq<byte>, k: nat)
    requires 4 * k + 8 <= |b|
    ensures WordIn(b[4..], k) == WordIn(b, k + 1)
  {
    assert b[4..][4 * k..4 * k + 4] == b[4 * (k + 1)..4 * (k + 1) + 4];
  }

  lemma {:induction false} WordDecoded(fs: seq<Schema>, b: seq<byte>, k: nat)
    requires |b| >= 4 * |fs| && k < |fs| && forall i :: 0 <= i < |fs| ==> fs[i].Num?
    ensures var r := DecodeFields(fs, b);
            r.Got? && k < |r.value| && r.value[k] == N(fs[k].number.FromWord(WordIn(b, k)))
  {
    DecodeWords(fs, b);
    if k == 0 {
      GetIsPositional(b);
    } else {
      WordDecoded(fs[1..], b[4..], k - 1);
      WordBehind(b, k - 1);
    }
  }

  // A header is decoded from the same places; the message number is a signed one.
  lemma DecodedWords(b: seq<byte>)
    requires |b| >= HEADER_SIZE
    ensures DecodeHeader(b).Got?
    ensures var h := DecodeHeader(b).value;
            && h.sequence == WordIn(b, 0) && h.timeStamp == WordIn(b, 1) && h.messageType % TWO32 == WordIn(b, 2)
            && h.message % TWO32 == WordIn(b, 3) && h.replySequence == WordIn(b, 4) && h.error % TWO32 == WordIn(b, 5)
  {
    var fs, vs := HEADER.fields, DecodedFields(b);
    forall k | 0 <= k < 6 ensures k < |vs| && vs[k] == N(fs[k].number.FromWord(WordIn(b, k))) {
      WordDecoded(fs, b, k);
    }
    FullWord(WordIn(b, 2));
    FullWord(WordIn(b, 3));
    FullWord(WordIn(b, 5));
    FullWord(WordIn(b, 0));
    FullWord(WordIn(b, 1));
    FullWord(WordIn(b, 4));
  }

  function DecodedFields(b: seq<byte>): (vs: seq<Value>)
    requires |b| >= HEADER_SIZE
    ensures DecodeFields(HEADER.fields, b).Got? && vs == DecodeFields(HEADER.fields, b).value
    ensures DecodeHeader(b).Got? && |vs| == 6 && (forall i :: 0 <= i < 6 ==> vs[i].N?)
    ensures DecodeHeader(b).value == Header(vs[0].n, vs[1].n, vs[2].n, vs[3].n, vs[4].n, vs[5].n)
  {
    DecodedHeaderFits(b);
    DecodeSound(HEADER, b);
    TypedFields(HEADER.fields, Decode(HEADER, b).value.items);
    DecodeFields(HEADER.fields, b).value
  }

  lemma FullWord(w: int)
    requires 0 <= w < TWO32
    ensures ULong.FromWord(w) == w && Int.FromWord(w) % TWO32 == w
  {
  }
}
