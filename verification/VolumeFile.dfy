/** The volume file `gluster_vol_usage` and the linked list built from it (`utils/src/vol_info.c`): a host line, then
    one line per backed-up file system with volume, key (client IP and path) and user. */
module VolumeFile {
  import opened Common
  import opened LinkedQueue
  import opened TextTokens

  datatype Record = Record(vol: string, key: string, user: string)

  function ByKey(key: string): Record -> bool { (r: Record) => r.key == key }

  // ------------------------------------------------------------------------------------------- reading the file

  function HostLine(host: string, point: string): string { host + " " + (point + "\n") }
  function RecordLine(r: Record): string { r.vol + " " + (r.key + " " + (r.user + "\n")) }

  function RecordLines(rs: seq<Record>): string {
    if rs == [] then "" else RecordLine(rs[0]) + RecordLines(rs[1..])
  }

  // The records that the `fscanf("%s %s %s") > 0` loop reads: a short last one keeps what the buffers held before.
  function Scan(ts: seq<string>, last: Record): seq<Record> {
    if ts == [] then [] else
    var r := Record(ts[0], if |ts| > 1 then ts[1] else last.key, if |ts| > 2 then ts[2] else last.user);
    [r] + if |ts| <= 3 then [] else Scan(ts[3..], r)
  }

  lemma ScanStep(ts: seq<string>, last: Record)
    requires ts != []
    ensures var r := Record(ts[0], if |ts| > 1 then ts[1] else last.key, if |ts| > 2 then ts[2] else last.user);
            Scan(ts, last) == [r] + Scan(if |ts| <= 3 then [] else ts[3..], r)
  {
  }

  // The words of the file; the first two are the host line.
  function Words(text: string): seq<string> { Tokens(text, Space) }

  function RecordsOf(text: string, junk: Record): seq<Record> { RecordsAmong(Words(text), junk) }

  // The host line of a file: host and mount point.
  function HostWords(text: string): seq<string> { HostAmong(Words(text)) }
  function HostAmong(ts: seq<string>): seq<string> { if |ts| < 2 then [] else ts[..2] }

  function RecordsAmong(ts: seq<string>, junk: Record): seq<Record> {
    if |ts| < 2 then [] else Scan(ts[2..], junk)
  }

  predicate CleanRecord(r: Record) { IsWord(r.vol, Space) && IsWord(r.key, Space) && IsWord(r.user, Space) }

  // A record line reads back as its three fields exactly when each is a non-empty word.
  lemma LineReadsBack(r: Record)
    ensures Words(RecordLine(r)) == [r.vol, r.key, r.user] <==> CleanRecord(r)
  {
    if CleanRecord(r) {
      var end := r.user + "\n";
      WordThenSep(r.user, '\n', "", Space);
      assert end + "" == end;
      WordThenSep(r.key, ' ', end, Space);
      WordThenSep(r.vol, ' ', r.key + " " + end, Space);
    } else {
      TokensAreWords(RecordLine(r), Space);
      var fields := [r.vol, r.key, r.user];
      assert !IsWord(fields[0], Space) || !IsWord(fields[1], Space) || !IsWord(fields[2], Space);
    }
  }

  lemma HostReadsBack(host: string, point: string)
    requires IsWord(host, Space) && IsWord(point, Space)
    ensures Words(HostLine(host, point)) == [host, point]
  {
    WordThenSep(point, '\n', "", Space);
    assert point + "\n" + "" == point + "\n";
    WordThenSep(host, ' ', point + "\n", Space);
  }

  // What the buffers hold after some records.
  function LastOf(rs: seq<Record>, last: Record): Record { if rs == [] then last else rs[|rs| - 1] }

  // Scanning splits at triples.
  lemma {:induction false} ScanConcat(a: seq<string>, b: seq<string>, last: Record)
    requires |a| % 3 == 0
    ensures Scan(a + b, last) == Scan(a, last) + Scan(b, LastOf(Scan(a, last), last))
  {
    if a == [] {
      assert a + b == b;
    } else {
      var r, rest := Record(a[0], a[1], a[2]), a[3..];
      assert (a + b)[3..] == rest + b;
      ScanConcat(rest, b, r);
      ScanTriple(a, last);
      ScanTriple(a + b, last);
      ConsLast(r, Scan(rest, r), last, Scan(rest + b, r), Scan(b, LastOf(Scan(rest, r), r)));
    }
  }

  lemma ScanTriple(ts: seq<string>, last: Record)
    requires |ts| >= 3
    ensures var r := Record(ts[0], ts[1], ts[2]); Scan(ts, last) == [r] + Scan(ts[3..], r)
  {
    ScanStep(ts, last);
  }

  lemma ConsLast(r: Record, rs: seq<Record>, last: Record, whole: seq<Record>, more: seq<Record>)
    requires whole == rs + more
    ensures LastOf([r] + rs, last) == LastOf(rs, r) && [r] + whole == [r] + rs + more
  {
  }

  // ------------------------------------------------------------------------------------------ well-formed files

  // Nothing yet, or a host line and whole records, ended by white space as every line is.
  predicate WellFormed(text: string) {
    text == [] || (|Words(text)| % 3 == 2 && EndsBlank(text))
  }

  predicate EndsBlank(text: string) { text == [] || Space(text[|text| - 1]) }

  lemma EndsConcat(a: string, b: string)
    requires EndsBlank(a) && EndsBlank(b)
    ensures EndsBlank(a + b)
  {
  }

  // What the buffers held before is never read from whole records.
  lemma {:induction false} WholeScan(ts: seq<string>, junk: Record, junk': Record)
    requires |ts| % 3 == 0
    ensures Scan(ts, junk) == Scan(ts, junk')
  {
    if ts != [] {
      ScanTriple(ts, junk);
      ScanTriple(ts, junk');
    }
  }

  lemma JunkUnread(text: string, junk: Record, junk': Record)
    requires WellFormed(text)
    ensures RecordsOf(text, junk) == RecordsOf(text, junk')
  {
    if |Words(text)| >= 2 { WholeScan(Words(text)[2..], junk, junk'); }
  }

  // Writing a host line and any clean records and scanning them back gives exactly those records, in order.
  lemma WriteThenScan(host: string, point: string, rs: seq<Record>, junk: Record)
    requires IsWord(host, Space) && IsWord(point, Space) && forall i :: 0 <= i < |rs| ==> CleanRecord(rs[i])
    ensures var text := HostLine(host, point) + RecordLines(rs);
            WellFormed(text) && HostWords(text) == [host, point] && RecordsOf(text, junk) == rs
  {
    HostReadsBack(host, point);
    LinesReadBack(rs);
    LinesEnd(rs);
    EndsConcat(HostLine(host, point), RecordLines(rs));
    TokensConcat(HostLine(host, point), RecordLines(rs), Space);
    FieldsScan(rs, junk);
    HostThenFields([host, point], Fields(rs));
  }

  lemma HostThenFields(host: seq<string>, fields: seq<string>)
    requires |host| == 2 && |fields| % 3 == 0
    ensures (host + fields)[..2] == host && (host + fields)[2..] == fields && |host + fields| % 3 == 2
  {
  }

  function Fields(rs: seq<Record>): (ts: seq<string>)
    ensures |ts| % 3 == 0
  {
    if rs == [] then [] else [rs[0].vol, rs[0].key, rs[0].user] + Fields(rs[1..])
  }

  lemma {:induction false} LinesReadBack(rs: seq<Record>)
    requires forall i :: 0 <= i < |rs| ==> CleanRecord(rs[i])
    ensures Words(RecordLines(rs)) == Fields(rs)
  {
    if rs != [] {
      LineReadsBack(rs[0]);
      TokensConcat(RecordLine(rs[0]), RecordLines(rs[1..]), Space);
      LinesReadBack(rs[1..]);
    }
  }

  lemma {:induction false} FieldsScan(rs: seq<Record>, junk: Record)
    ensures Scan(Fields(rs), junk) == rs
  {
    if rs != [] {
      FieldsScan(rs[1..], rs[0]);
      assert Fields(rs)[3..] == Fields(rs[1..]);
      assert rs == [rs[0]] + rs[1..];
    }
  }

  lemma {:induction false} LinesEnd(rs: seq<Record>)
    ensures EndsBlank(RecordLines(rs))
  {
    if rs != [] {
      LinesEnd(rs[1..]);
      EndsConcat(RecordLine(rs[0]), RecordLines(rs[1..]));
    }
  }

  // The words of any record's line are those of its three fields, whatever they contain.
  lemma LineWords(r: Record)
    ensures Words(RecordLine(r)) == Words(r.vol) + Words(r.key) + Words(r.user)
  {
    TrailingSep(r.user, '\n', Space);
    WordsAround(r.key, r.user + "\n");
    WordsAround(r.vol, r.key + " " + (r.user + "\n"));
  }

  lemma WordsAround(a: string, b: string)
    ensures Words(a + " " + b) == Words(a) + Words(b)
  {
    TokensAround(a, ' ', b, Space);
    assert a + " " + b == a + ([' '] + b);
  }

  lemma PastHost(ts: seq<string>, more: seq<string>)
    requires |ts| % 3 == 2
    ensures (ts + more)[2..] == ts[2..] + more && (ts + more)[..2] == ts[..2]
    ensures |ts[2..]| % 3 == 0 && (|ts + more| % 3 == 2 <==> |more| % 3 == 0)
  {
  }

  lemma AppendWords(ts: seq<string>, more: seq<string>, junk: Record)
    requires |ts| % 3 == 2
    ensures var all, rs := ts + more, RecordsAmong(ts, junk);
            HostAmong(all) == HostAmong(ts) && |HostAmong(ts)| == 2 &&
            RecordsAmong(all, junk) == rs + Scan(more, LastOf(rs, junk)) &&
            (|all| % 3 == 2 <==> |more| % 3 == 0)
  {
    PastHost(ts, more);
    assert HostAmong(ts) == ts[..2] && RecordsAmong(ts, junk) == Scan(ts[2..], junk);
    ScanConcat(ts[2..], more, junk);
  }

  // Appending text to a well-formed file leaves its host line and records and adds what its words scan as; whole
  // triples of words keep the file well formed, and nothing else does.
  lemma AppendScans(text: string, line: string, junk: Record)
    requires WellFormed(text) && text != [] && EndsBlank(line)
    ensures var text', rs := text + line, RecordsOf(text, junk);
            && RecordsOf(text', junk) == rs + Scan(Words(line), LastOf(rs, junk))
            && HostWords(text') == HostWords(text) && |HostWords(text)| == 2
            && (WellFormed(text') <==> |Words(line)| % 3 == 0)
  {
    EndsConcat(text, line);
    TokensConcat(text, line, Space);
    AppendWords(Words(text), Words(line), junk);
  }

  // Appending the line of a clean record to a file with a host line adds that record at the end, and nothing else.
  lemma AppendAddsRecord(text: string, r: Record, junk: Record)
    requires WellFormed(text) && text != [] && CleanRecord(r)
    ensures var text' := text + RecordLine(r);
            WellFormed(text') && RecordsOf(text', junk) == RecordsOf(text, junk) + [r] &&
            HostWords(text') == HostWords(text)
  {
    LineReadsBack(r);
    AppendScans(text, RecordLine(r), junk);
    assert Words(RecordLine(r)) == [r.vol, r.key, r.user];
  }

  // What is appended reads back as three words exactly when each field is one.
  lemma AppendKeepsFormIff(text: string, r: Record)
    requires WellFormed(text)
    ensures Words(text + RecordLine(r)) == Words(text) + [r.vol, r.key, r.user] <==> CleanRecord(r)
  {
    TokensConcat(text, RecordLine(r), Space);
    LineReadsBack(r);
    var ts := Words(text);
    assert (ts + Words(RecordLine(r)))[|ts|..] == Words(RecordLine(r));
    assert (ts + [r.vol, r.key, r.user])[|ts|..] == [r.vol, r.key, r.user];
  }

  // A key with white space in it, or empty, is found in no file at all.
  lemma {:induction false} DirtyKeyNotFound(ts: seq<string>, last: Record, key: string)
    requires !IsWord(key, Space) && last.key != key && forall i :: 0 <= i < |ts| ==> IsWord(ts[i], Space)
    ensures FirstMatch(Scan(ts, last), ByKey(key)) == None
  {
    if ts != [] {
      var r := Scan(ts, last)[0];
      assert r.key != key;
      if |ts| > 3 {
        DirtyKeyNotFound(ts[3..], r, key);
        assert Scan(ts, last)[1..] == Scan(ts[3..], r);
      } else {
        assert Scan(ts, last)[1..] == [];
      }
    }
  }

  // ---------------------------------------------------------------------------------------------- the heap list

  class VolNode {
    const record: Record
    var next: VolNode?

    constructor (record: Record)
      ensures this.record == record && next == null
    {
      this.record := record;
      next := null;
    }
  }

  ghost predicate Listed(head: VolNode?, nodes: seq<VolNode>)
    reads nodes
  {
    && (head == null <==> nodes == [])
    && (nodes != [] ==> head == nodes[0] && nodes[|nodes| - 1].next == null)
    && (forall i {:trigger nodes[i].next} :: 0 <= i < |nodes| - 1 ==> nodes[i].next == nodes[i + 1])
    && (forall i, j :: 0 <= i < j < |nodes| ==> nodes[i] != nodes[j])
  }

  ghost function RecordsIn(nodes: seq<VolNode>): (rs: seq<Record>)
    ensures |rs| == |nodes| && forall i :: 0 <= i < |rs| ==> rs[i] == nodes[i].record
  {
    seq(|nodes|, i requires 0 <= i < |nodes| => nodes[i].record)
  }

  // insert_node
  method InsertNode(head: VolNode, record: Record, ghost nodes: seq<VolNode>) returns (ghost nodes': seq<VolNode>)
    requires Listed(head, nodes)
    modifies nodes
    ensures Listed(head, nodes') && RecordsIn(nodes') == RecordsIn(nodes) + [record]
    ensures |nodes'| == |nodes| + 1 && nodes'[..|nodes|] == nodes && fresh(nodes'[|nodes|])
  {
    var iter := head;
    ghost var k := 0;
    while iter.next != null
      invariant 0 <= k < |nodes| && iter == nodes[k]
      decreases |nodes| - k
    {
      iter := iter.next;
      k := k + 1;
    }
    var temp := new VolNode(record);
    iter.next := temp;
    nodes' := nodes + [temp];
  }

  // init_vol_fs_list; junk is what the buffers hold before anything is read
  method InitVolFsList(text: string, junk: Record) returns (head: VolNode?, flag: int, ghost nodes: seq<VolNode>)
    ensures Listed(head, nodes) && RecordsIn(nodes) == RecordsOf(text, junk)
    ensures flag == if RecordsOf(text, junk) == [] then -1 else 0
  {
    var ts := Tokens(text, Space);
    head, flag, nodes := null, -1, [];
    if |ts| >= 2 {
      head, flag, nodes := BuildList(ts[2..], junk);
    }
  }

  method BuildList(words: seq<string>, junk: Record) returns (head: VolNode?, flag: int, ghost nodes: seq<VolNode>)
    ensures Listed(head, nodes) && RecordsIn(nodes) == Scan(words, junk)
    ensures flag == if Scan(words, junk) == [] then -1 else 0
  {
    head, nodes, flag := null, [], -1;
    var ts, temp := words, junk;
    while ts != []
      invariant Listed(head, nodes) && (head == null <==> flag == -1) && (flag == -1 || flag == 0)
      invariant Scan(words, junk) == RecordsIn(nodes) + Scan(ts, temp)
      invariant forall i :: 0 <= i < |nodes| ==> fresh(nodes[i])
      decreases |ts|
    {
      ghost var was := Scan(ts, temp);
      ScanStep(ts, temp);
      temp := Record(ts[0], if |ts| > 1 then ts[1] else temp.key, if |ts| > 2 then ts[2] else temp.user);
      ts := if |ts| <= 3 then [] else ts[3..];
      ReadOn(RecordsIn(nodes), temp, Scan(ts, temp), was);
      head, nodes := AddNode(head, flag, temp, nodes);
      flag := 0;
    }
  }

  lemma ReadOn(a: seq<Record>, r: Record, b: seq<Record>, was: seq<Record>)
    requires was == [r] + b
    ensures a + was == a + [r] + b
  {
  }

  // The first record makes the head, another one goes to the end.
  method AddNode(head: VolNode?, flag: int, record: Record, ghost nodes: seq<VolNode>)
    returns (head': VolNode, ghost nodes': seq<VolNode>)
    requires Listed(head, nodes) && (head == null <==> flag == -1)
    modifies nodes
    ensures Listed(head', nodes') && RecordsIn(nodes') == RecordsIn(nodes) + [record]
    ensures |nodes'| == |nodes| + 1 && nodes'[..|nodes|] == nodes && fresh(nodes'[|nodes|])
  {
    if flag == -1 {
      head', nodes' := InitHead(record);
    } else {
      head' := head;
      nodes' := InsertNode(head, record, nodes);
    }
  }

  method InitHead(record: Record) returns (head: VolNode, ghost nodes: seq<VolNode>)
    ensures Listed(head, nodes) && RecordsIn(nodes) == [record] && nodes == [head] && fresh(head)
  {
    head := new VolNode(record);
    nodes := [head];
  }

  // find
  method Find(head: VolNode?, key: string, ghost nodes: seq<VolNode>) returns (r: VolNode?)
    requires Listed(head, nodes)
    ensures FirstMatch(RecordsIn(nodes), ByKey(key)) == if r == null then None else Some(r.record)
  {
    var iter := head;
    ghost var k := 0;
    while iter != null
      invariant 0 <= k <= |nodes| && iter == if k < |nodes| then nodes[k] else null
      invariant forall i :: 0 <= i < k ==> nodes[i].record.key != key
      decreases |nodes| - k
    {
      if iter.record.key == key {
        MatchAt(RecordsIn(nodes), ByKey(key), k);
        return iter;
      }
      iter := iter.next;
      k := k + 1;
    }
    MatchAt(RecordsIn(nodes), ByKey(key), k);
    return null;
  }

  // set_host_config: an operator's answers complete a file without a host line
  function WithHost(text: string, host: string, point: string): string {
    if |Words(text)| >= 2 then text else text + HostLine(host, point)
  }

  // Whatever the file, it has a host line then.
  lemma HostKnown(text: string, host: string, point: string)
    requires IsWord(host, Space) && IsWord(point, Space)
    ensures |HostWords(WithHost(text, host, point))| == 2
  {
    var before := text + host;
    TrailingSep(point, '\n', Space);
    WordAlone(point, Space);
    WordsAround(before, point + "\n");
    assert before[|text|] == host[0];
    SomeToken(before, |text|, Space);
    assert text + HostLine(host, point) == before + " " + (point + "\n");
  }
}
