/** Record marking: the four bytes that the server puts before each reply, and the reader of section 11 of RFC 5531
    (a record is a run of fragments, each headed by its 31-bit length and a top bit that says "last"). */
module RecordMark {
  import opened Common
  import opened Xdr

  // The `|(1<<31)` of the source on a 32-bit word: bit 31 is set, the other bits stay.
  function SetTopBit(n: int): (w: int)
    requires 0 <= n < TWO32
    ensures 0 <= w < TWO32
  {
    if n / TWO31 % 2 == 1 then n else n + TWO31
  }

  // The length is recovered from the mark exactly when it fits 31 bits, and the mark always says "last fragment".
  lemma LengthRecovered(n: int)
    requires 0 <= n < TWO32
    ensures SetTopBit(n) >= TWO31
    ensures SetTopBit(n) % TWO31 == n <==> n < TWO31
  {
  }

  // One reply as it goes out: the mark, then the message.
  function Frame(message: seq<byte>): (r: seq<byte>)
    requires |message| < TWO32
    ensures |r| == |message| + 4
  {
    PutWord(SetTopBit(|message|)) + message
  }

  function Stream(messages: seq<seq<byte>>): seq<byte>
    requires forall m :: m in messages ==> |m| < TWO32
  {
    if messages == [] then [] else Frame(messages[0]) + Stream(messages[1..])
  }

  // Reads fragments up to and including one marked last; `soFar` is what earlier fragments of the record held.
  function ReadRecord(soFar: seq<byte>, b: seq<byte>): (r: Parsed<seq<byte>>)
    ensures r.Got? ==> |r.rest| < |b|
    decreases |b|
  {
    if |b| < 4 || |b| - 4 < GetWord(b) % TWO31 then Fail else
    var end := 4 + GetWord(b) % TWO31;
    if GetWord(b) >= TWO31 then Got(soFar + b[4..end], b[end..]) else ReadRecord(soFar + b[4..end], b[end..])
  }

  function ReadAll(b: seq<byte>): Option<seq<seq<byte>>>
    decreases |b|
  {
    if b == [] then Some([]) else
    match ReadRecord([], b)
    case Fail => None
    case Got(record, rest) => match ReadAll(rest) case None => None case Some(more) => Some([record] + more)
  }

  lemma ReadFrame(message: seq<byte>, tail: seq<byte>)
    requires |message| < TWO31
    ensures ReadRecord([], Frame(message) + tail) == Got(message, tail)
  {
    var b := Frame(message) + tail;
    WordThen(SetTopBit(|message|), message + tail);
    assert b == PutWord(SetTopBit(|message|)) + (message + tail);
    LengthRecovered(|message|);
    assert [] + b[4..4 + |message|] == message && b[4 + |message|..] == tail;
  }

  // Nothing is lost: any list of replies below 2^31 bytes each is read back from its concatenated frames.
  lemma {:induction false} StreamReadsBack(messages: seq<seq<byte>>)
    requires forall m :: m in messages ==> |m| < TWO31
    ensures ReadAll(Stream(messages)) == Some(messages)
  {
    if messages != [] {
      ReadFrame(messages[0], Stream(messages[1..]));
      StreamReadsBack(messages[1..]);
      assert messages == [messages[0]] + messages[1..];
    }
  }

  // A longer reply is never read back: its mark announces fewer bytes than follow.
  lemma OverlongFrameMisread(message: seq<byte>, tail: seq<byte>)
    requires TWO31 <= |message| < TWO32
    ensures ReadRecord([], Frame(message) + tail) != Got(message, tail)
  {
    var b := Frame(message) + tail;
    WordThen(SetTopBit(|message|), message + tail);
    assert b == PutWord(SetTopBit(|message|)) + (message + tail);
  }

  // A framed message is read back exactly when it is shorter than 2^31 bytes.
  lemma FrameReadsIff(message: seq<byte>, tail: seq<byte>)
    requires |message| < TWO32
    ensures ReadRecord([], Frame(message) + tail) == Got(message, tail) <==> |message| < TWO31
  {
    if |message| < TWO31 { ReadFrame(message, tail); } else { OverlongFrameMisread(message, tail); }
  }
}
