/** Which volume and directory a backup or a recover uses (`ndmp_data_start_backup`, `ndmp_data_start_recover`), over
    any run of backups.  Backup takes the first record with its key, recover the last one. */
module Volumes {
  import opened Common
  import opened LinkedQueue
  import opened TextTokens
  import opened VolumeFile

  // A backup of `path` on the client `ip`, with what the operator would answer if asked for the host line or a volume.
  datatype Backup = Backup(ip: string, path: string, user: string, host: string, point: string, vol: string) {
    function Key(): string { ip + path }
  }

  function LastMatch<T>(s: seq<T>, matches: T -> bool): Option<T> {
    if s == [] then None else
    var k := |s| - 1;
    if matches(s[k]) then Some(s[k]) else LastMatch(s[..k], matches)
  }

  // It is at the greatest matching index, and there is none exactly when nothing matches.
  lemma {:induction false} LastAt<T>(s: seq<T>, matches: T -> bool, k: nat)
    requires k < |s| && matches(s[k]) && forall i :: k < i < |s| ==> !matches(s[i])
    ensures LastMatch(s, matches) == Some(s[k])
  {
    if k < |s| - 1 { LastAt(s[..|s| - 1], matches, k); }
  }

  lemma {:induction false} NoLastIff<T>(s: seq<T>, matches: T -> bool)
    ensures LastMatch(s, matches).None? <==> forall i :: 0 <= i < |s| ==> !matches(s[i])
  {
    if s != [] {
      NoLastIff(s[..|s| - 1], matches);
      assert forall i :: 0 <= i < |s| - 1 ==> s[i] == s[..|s| - 1][i];
    }
  }

  // The volume a backup uses, and the file it leaves.
  function VolumeOf(text: string, b: Backup, junk: Record): string {
    var found := FirstMatch(RecordsOf(text, junk), ByKey(b.Key()));
    if found.Some? then found.value.vol else b.vol
  }

  function FileAfter(text: string, b: Backup, junk: Record): string {
    var configured := WithHost(text, b.host, b.point);
    if FirstMatch(RecordsOf(text, junk), ByKey(b.Key())).Some? then configured
    else configured + RecordLine(Record(b.vol, b.Key(), b.user))
  }

  function FileAfterAll(text: string, bs: seq<Backup>, junk: Record): string
    decreases |bs|
  {
    if bs == [] then text else FileAfterAll(FileAfter(text, bs[0], junk), bs[1..], junk)
  }

  // Where a backup writes; the mount point is read from the file after set_host_config.
  function BackupDir(text: string, b: Backup, junk: Record): string
    requires HostWords(WithHost(text, b.host, b.point)) != []
  {
    HostWords(WithHost(text, b.host, b.point))[1] + "/" + VolumeOf(text, b, junk) + "/" + b.Key()
  }

  // Where a recover reads, when the file records the client and path.
  function RecoverDir(text: string, ip: string, path: string, original: string, junk: Record): Option<string> {
    var found := LastMatch(RecordsOf(text, junk), ByKey(ip + path));
    if HostWords(text) == [] || found.None? then None
    else Some(HostWords(text)[1] + "/" + found.value.vol + "/" + (ip + path) + original)
  }

  // -------------------------------------------------------------------------------------------- unique keys

  ghost predicate UniqueKeys(rs: seq<Record>) {
    forall i, j :: 0 <= i < j < |rs| ==> rs[i].key != rs[j].key
  }

  lemma {:induction false} FirstByKey(rs: seq<Record>, key: string)
    ensures var r := FirstMatch(rs, ByKey(key));
            if r.Some? then r.value in rs && r.value.key == key
            else forall i :: 0 <= i < |rs| ==> rs[i].key != key
  {
    if rs != [] && rs[0].key != key {
      FirstByKey(rs[1..], key);
      assert forall i :: 0 < i < |rs| ==> rs[i] == rs[1..][i - 1];
    }
  }

  // With unique keys the first record with a key is the last.
  lemma FirstIsLast(rs: seq<Record>, key: string)
    requires UniqueKeys(rs)
    ensures FirstMatch(rs, ByKey(key)) == LastMatch(rs, ByKey(key))
  {
    FirstByKey(rs, key);
    var r := FirstMatch(rs, ByKey(key));
    if r.Some? {
      var k :| 0 <= k < |rs| && rs[k] == r.value;
      LastAt(rs, ByKey(key), k);
    } else {
      NoLastIff(rs, ByKey(key));
    }
  }

  // ---------------------------------------------------------------------------------------- one backup

  // A file as backups should leave it.
  ghost predicate Good(text: string, junk: Record) {
    WellFormed(text) && UniqueKeys(RecordsOf(text, junk))
  }

  // The operator's answers are read with scanf, so they are words; the path and the user come from the client.
  predicate Answered(b: Backup) { IsWord(b.host, Space) && IsWord(b.point, Space) && IsWord(b.vol, Space) }

  lemma TwoWordsOnly(line: string, host: string, point: string, junk: Record)
    requires Words(line) == [host, point] && EndsBlank(line)
    ensures WellFormed(line) && line != [] && RecordsOf(line, junk) == []
  {
  }

  // A file without words gets the host line.
  lemma HostAdded(host: string, point: string)
    requires IsWord(host, Space) && IsWord(point, Space)
    ensures WithHost([], host, point) == HostLine(host, point) && EndsBlank(HostLine(host, point))
    ensures Words([]) == []
  {
    var line := HostLine(host, point);
    assert [] + line == line && line[|line| - 1] == '\n';
  }

  lemma WithHostKeeps(text: string, host: string, point: string, junk: Record)
    requires WellFormed(text) && IsWord(host, Space) && IsWord(point, Space)
    ensures var text' := WithHost(text, host, point);
            WellFormed(text') && text' != [] && RecordsOf(text', junk) == RecordsOf(text, junk) &&
            (text != [] ==> text' == text)
  {
    if text == [] {
      HostAdded(host, point);
      HostReadsBack(host, point);
      TwoWordsOnly(WithHost([], host, point), host, point, junk);
    }
  }

  predicate Recorded(text: string, b: Backup, junk: Record) {
    FirstMatch(RecordsOf(text, junk), ByKey(b.Key())).Some?
  }

  // The words of the line that a backup appends, and the keys that they will be read as.
  function NewWords(b: Backup): seq<string> { [b.vol] + Words(b.Key()) + Words(b.user) }

  function KeysOf(ts: seq<string>): seq<string> { if |ts| < 3 then [] else [ts[1]] + KeysOf(ts[3..]) }

  // What a backup appends is read as whole records with new, distinct keys; a recorded key appends nothing.
  predicate KeepsForm(text: string, b: Backup, junk: Record) {
    Recorded(text, b, junk) || (|NewWords(b)| % 3 == 0 && NewKeys(RecordsOf(text, junk), KeysOf(NewWords(b))))
  }

  predicate NewKeys(rs: seq<Record>, keys: seq<string>) {
    && (forall i, j :: 0 <= i < j < |keys| ==> keys[i] != keys[j])
    && (forall i :: 0 <= i < |keys| ==> FirstMatch(rs, ByKey(keys[i])).None?)
  }

  lemma {:induction false} KeysScanned(ts: seq<string>, last: Record)
    requires |ts| % 3 == 0
    ensures |KeysOf(ts)| == |Scan(ts, last)|
    ensures forall i :: 0 <= i < |KeysOf(ts)| ==> Scan(ts, last)[i].key == KeysOf(ts)[i]
  {
    if ts != [] {
      ScanTriple(ts, last);
      KeysScanned(ts[3..], Record(ts[0], ts[1], ts[2]));
    }
  }

  // A backup whose key is not recorded adds what its words scan as, after the host line if that was missing.
  lemma BackupAppends(text: string, b: Backup, junk: Record)
    requires WellFormed(text) && Answered(b) && !Recorded(text, b, junk)
    ensures var text', rs := FileAfter(text, b, junk), RecordsOf(text, junk);
            && RecordsOf(text', junk) == rs + Scan(NewWords(b), LastOf(rs, junk))
            && HostWords(text') == HostWords(WithHost(text, b.host, b.point)) && |HostWords(text')| == 2
            && (WellFormed(text') <==> |NewWords(b)| % 3 == 0)
  {
    var r, configured := Record(b.vol, b.Key(), b.user), WithHost(text, b.host, b.point);
    WithHostKeeps(text, b.host, b.point, junk);
    NewLine(b);
    AppendScans(configured, RecordLine(r), junk);
    assert FileAfter(text, b, junk) == configured + RecordLine(r);
  }

  lemma NewLine(b: Backup)
    requires Answered(b)
    ensures var line := RecordLine(Record(b.vol, b.Key(), b.user)); Words(line) == NewWords(b) && EndsBlank(line)
  {
    LineWords(Record(b.vol, b.Key(), b.user));
    WordAlone(b.vol, Space);
  }

  lemma UniqueConcat(rs: seq<Record>, more: seq<Record>)
    requires UniqueKeys(rs)
    ensures UniqueKeys(rs + more) <==>
            UniqueKeys(more) && forall i :: 0 <= i < |more| ==> FirstMatch(rs, ByKey(more[i].key)).None?
  {
    forall i | 0 <= i < |more|
      ensures FirstMatch(rs, ByKey(more[i].key)).None? <==> forall j :: 0 <= j < |rs| ==> rs[j].key != more[i].key
    {
      FirstByKey(rs, more[i].key);
    }
    if UniqueKeys(rs + more) {
      forall i, j | 0 <= i < j < |more| ensures more[i].key != more[j].key {
        assert (rs + more)[|rs| + i] == more[i] && (rs + more)[|rs| + j] == more[j];
      }
      forall i, j | 0 <= i < |more| && 0 <= j < |rs| ensures rs[j].key != more[i].key {
        assert (rs + more)[|rs| + i] == more[i] && (rs + more)[j] == rs[j];
      }
    }
  }

  lemma ScannedUnique(rs: seq<Record>, ts: seq<string>, last: Record)
    requires UniqueKeys(rs) && |ts| % 3 == 0
    ensures UniqueKeys(rs + Scan(ts, last)) <==> NewKeys(rs, KeysOf(ts))
  {
    KeysScanned(ts, last);
    UniqueConcat(rs, Scan(ts, last));
  }

  // Exactly when a backup keeps a good file good.
  lemma KeepsFormIff(text: string, b: Backup, junk: Record)
    requires Good(text, junk) && Answered(b)
    ensures Good(FileAfter(text, b, junk), junk) <==> KeepsForm(text, b, junk)
  {
    var rs := RecordsOf(text, junk);
    if Recorded(text, b, junk) {
      WithHostKeeps(text, b.host, b.point, junk);
    } else {
      BackupAppends(text, b, junk);
      if |NewWords(b)| % 3 == 0 { ScannedUnique(rs, NewWords(b), LastOf(rs, junk)); }
    }
  }

  // Every backup of a good file keeps its host line and its records in place and order.
  lemma RecordsStay(text: string, b: Backup, junk: Record)
    requires WellFormed(text) && Answered(b)
    ensures var text' := FileAfter(text, b, junk);
            text' != [] && RecordsOf(text, junk) <= RecordsOf(text', junk) &&
            HostWords(text') == HostWords(WithHost(text, b.host, b.point)) && |HostWords(text')| == 2 &&
            (text != [] ==> HostWords(text') == HostWords(text))
  {
    WithHostKeeps(text, b.host, b.point, junk);
    if !Recorded(text, b, junk) { BackupAppends(text, b, junk); }
  }

  // With a key that is a word, a backup is recorded under it with the volume that it used, whoever the user.
  lemma BackupRecorded(text: string, b: Backup, junk: Record)
    requires WellFormed(text) && Answered(b) && IsWord(b.Key(), Space)
    ensures var found := FirstMatch(RecordsOf(FileAfter(text, b, junk), junk), ByKey(b.Key()));
            found.Some? && found.value.vol == VolumeOf(text, b, junk)
  {
    var rs := RecordsOf(text, junk);
    WithHostKeeps(text, b.host, b.point, junk);
    if !Recorded(text, b, junk) {
      BackupAppends(text, b, junk);
      WordAlone(b.Key(), Space);
      var more := Scan(NewWords(b), LastOf(rs, junk));
      assert NewWords(b)[0] == b.vol && NewWords(b)[1] == b.Key();
      ScanStep(NewWords(b), LastOf(rs, junk));
      FirstByKey(rs, b.Key());
      MatchAt(rs + more, ByKey(b.Key()), |rs|);
    }
  }

  // A key once recorded keeps its volume when records are added behind.
  lemma KeyKept(rs: seq<Record>, rs': seq<Record>, key: string)
    requires rs <= rs' && UniqueKeys(rs') && FirstMatch(rs, ByKey(key)).Some?
    ensures FirstMatch(rs', ByKey(key)) == FirstMatch(rs, ByKey(key))
  {
    FirstByKey(rs, key);
    var k :| 0 <= k < |rs| && rs[k] == FirstMatch(rs, ByKey(key)).value;
    assert rs'[k] == rs[k];
    MatchAt(rs', ByKey(key), k);
  }

  // ---------------------------------------------------------------------------------------- runs of backups

  // Each backup of a run is answered and keeps the form of the file that it finds.
  predicate AllKeep(text: string, bs: seq<Backup>, junk: Record)
    decreases |bs|
  {
    bs == [] ||
    (Answered(bs[0]) && KeepsForm(text, bs[0], junk) && AllKeep(FileAfter(text, bs[0], junk), bs[1..], junk))
  }

  ghost predicate AlwaysGood(text: string, bs: seq<Backup>, junk: Record)
    decreases |bs|
  {
    Good(text, junk) && (bs == [] || AlwaysGood(FileAfter(text, bs[0], junk), bs[1..], junk))
  }

  // Exactly when the file stays good through a run.
  lemma {:induction false} AlwaysGoodIff(text: string, bs: seq<Backup>, junk: Record)
    requires Good(text, junk) && forall i :: 0 <= i < |bs| ==> Answered(bs[i])
    ensures AlwaysGood(text, bs, junk) <==> AllKeep(text, bs, junk)
    decreases |bs|
  {
    if bs != [] {
      KeepsFormIff(text, bs[0], junk);
      if KeepsForm(text, bs[0], junk) { AlwaysGoodIff(FileAfter(text, bs[0], junk), bs[1..], junk); }
    }
  }

  // Through such a run the keys stay unique, no record moves or changes, and the host line is kept.
  lemma {:induction false} RunKeepsRecords(text: string, bs: seq<Backup>, junk: Record)
    requires Good(text, junk) && AllKeep(text, bs, junk)
    ensures var text' := FileAfterAll(text, bs, junk);
            Good(text', junk) && RecordsOf(text, junk) <= RecordsOf(text', junk) &&
            (text != [] ==> text' != [] && HostWords(text') == HostWords(text))
    decreases |bs|
  {
    if bs != [] {
      KeepsFormIff(text, bs[0], junk);
      RecordsStay(text, bs[0], junk);
      RunKeepsRecords(FileAfter(text, bs[0], junk), bs[1..], junk);
    }
  }

  // At any time of such a run, recover's last match is backup's first match.
  lemma RecoverUsesBackupVolume(text: string, bs: seq<Backup>, key: string, junk: Record)
    requires Good(text, junk) && AllKeep(text, bs, junk)
    ensures var rs := RecordsOf(FileAfterAll(text, bs, junk), junk);
            FirstMatch(rs, ByKey(key)) == LastMatch(rs, ByKey(key))
  {
    RunKeepsRecords(text, bs, junk);
    FirstIsLast(RecordsOf(FileAfterAll(text, bs, junk), junk), key);
  }

  // A recover of the client and path of the first backup of such a run reads from exactly the directory that backup
  // wrote to, extended by the requested original path, whatever was backed up after it.
  lemma RecoverReadsBackup(text: string, bs: seq<Backup>, original: string, junk: Record)
    requires Good(text, junk) && AllKeep(text, bs, junk) && bs != [] && IsWord(bs[0].Key(), Space)
    ensures HostWords(WithHost(text, bs[0].host, bs[0].point)) != []
    ensures RecoverDir(FileAfterAll(text, bs, junk), bs[0].ip, bs[0].path, original, junk) ==
            Some(BackupDir(text, bs[0], junk) + original)
  {
    var b := bs[0];
    var text1 := FileAfter(text, b, junk);
    var text2 := FileAfterAll(text1, bs[1..], junk);
    KeepsFormIff(text, b, junk);
    RecordsStay(text, b, junk);
    BackupRecorded(text, b, junk);
    RunKeepsRecords(text1, bs[1..], junk);
    KeyKept(RecordsOf(text1, junk), RecordsOf(text2, junk), b.Key());
    FirstIsLast(RecordsOf(text2, junk), b.Key());
  }

  // --------------------------------------------------------------------------- what a bad line does to a recover

  lemma {:induction false} LastOfConcat(rs: seq<Record>, more: seq<Record>, key: string)
    ensures LastMatch(rs + more, ByKey(key)) ==
            if LastMatch(more, ByKey(key)).Some? then LastMatch(more, ByKey(key)) else LastMatch(rs, ByKey(key))
    decreases |more|
  {
    if more == [] {
      assert rs + more == rs;
    } else {
      var k := |more| - 1;
      assert (rs + more)[|rs| + k] == more[k] && (rs + more)[..|rs| + k] == rs + more[..k];
      LastOfConcat(rs, more[..k], key);
    }
  }

  // The record that a recover will find for a key among the words that a backup appends.
  function Found(text: string, b: Backup, key: string, junk: Record): Option<Record> {
    LastMatch(Scan(NewWords(b), LastOf(RecordsOf(text, junk), junk)), ByKey(key))
  }

  // Exactly when a backup, whatever its path and user, leaves the volume that a recover uses for a recorded key: it
  // appends nothing, or nothing that is read as a record of that key with another volume.
  lemma RecoverKeptIff(text: string, b: Backup, key: string, junk: Record)
    requires WellFormed(text) && Answered(b) && LastMatch(RecordsOf(text, junk), ByKey(key)).Some?
    ensures var before, text' := LastMatch(RecordsOf(text, junk), ByKey(key)).value, FileAfter(text, b, junk);
            var after := LastMatch(RecordsOf(text', junk), ByKey(key));
            after.Some? &&
            (after.value.vol == before.vol <==>
             Recorded(text, b, junk) || Found(text, b, key, junk).None? ||
             Found(text, b, key, junk).value.vol == before.vol)
  {
    var rs := RecordsOf(text, junk);
    if Recorded(text, b, junk) {
      WithHostKeeps(text, b.host, b.point, junk);
    } else {
      BackupAppends(text, b, junk);
      LastOfConcat(rs, Scan(NewWords(b), LastOf(rs, junk)), key);
    }
  }

  // A backup of words that are not recorded yet adds one record, behind those of the file.
  lemma CleanBackup(text: string, b: Backup, junk: Record)
    requires WellFormed(text) && Answered(b) && !Recorded(text, b, junk)
    requires IsWord(b.Key(), Space) && IsWord(b.user, Space)
    ensures RecordsOf(FileAfter(text, b, junk), junk) == RecordsOf(text, junk) + [Record(b.vol, b.Key(), b.user)]
    ensures WellFormed(FileAfter(text, b, junk))
  {
    WordAlone(b.Key(), Space);
    WordAlone(b.user, Space);
    OneTriple(NewWords(b), b, LastOf(RecordsOf(text, junk), junk));
    BackupAppends(text, b, junk);
  }

  lemma OneTriple(ts: seq<string>, b: Backup, last: Record)
    requires ts == [b.vol] + [b.Key()] + [b.user]
    ensures Scan(ts, last) == [Record(b.vol, b.Key(), b.user)] && |ts| % 3 == 0
  {
    ScanTriple(ts, last);
  }

  // The first backup on an empty file, when its key and user are words.
  lemma FirstBackup(b: Backup, junk: Record)
    requires Answered(b) && IsWord(b.Key(), Space) && IsWord(b.user, Space)
    ensures RecordsOf(FileAfter("", b, junk), junk) == [Record(b.vol, b.Key(), b.user)]
    ensures Good(FileAfter("", b, junk), junk)
  {
    CleanBackup("", b, junk);
    assert [] + [Record(b.vol, b.Key(), b.user)] == [Record(b.vol, b.Key(), b.user)];
  }

  lemma WordThen(x: string, rest: string, ws: seq<string>)
    requires IsWord(x, Space) && Words(rest) == ws
    ensures Words(x + ([' '] + rest)) == [x] + ws
  {
    TokensAround(x, ' ', rest, Space);
    WordAlone(x, Space);
  }

  lemma FourWords(k: string, x: string, y: string, z: string, key: string)
    requires IsWord(x, Space) && IsWord(y, Space) && IsWord(z, Space) && IsWord(key, Space)
    requires k == x + ([' '] + (y + ([' '] + (z + ([' '] + key)))))
    ensures Words(k) == [x, y, z, key]
  {
    WordAlone(key, Space);
    WordThen(z, key, [key]);
    WordThen(y, z + ([' '] + key), [z, key]);
    WordThen(x, y + ([' '] + (z + ([' '] + key))), [y, z, key]);
  }

  lemma SixScanned(ts: seq<string>, last: Record)
    requires |ts| == 6
    ensures Scan(ts, last) == [Record(ts[0], ts[1], ts[2]), Record(ts[3], ts[4], ts[5])]
  {
    ScanTriple(ts, last);
    ScanTriple(ts[3..], Record(ts[0], ts[1], ts[2]));
  }

  lemma SplitsInTwo(text: string, b: Backup, x: string, y: string, z: string, key: string, junk: Record)
    requires WellFormed(text) && Answered(b) && IsWord(b.user, Space) && !Recorded(text, b, junk)
    requires IsWord(x, Space) && IsWord(y, Space) && IsWord(z, Space) && IsWord(key, Space)
    requires b.Key() == x + ([' '] + (y + ([' '] + (z + ([' '] + key)))))
    ensures RecordsOf(FileAfter(text, b, junk), junk) ==
            RecordsOf(text, junk) + [Record(b.vol, x, y), Record(z, key, b.user)]
  {
    SixWords(b, x, y, z, key);
    BackupAppends(text, b, junk);
    SixScanned([b.vol, x, y, z, key, b.user], LastOf(RecordsOf(text, junk), junk));
  }

  lemma SixWords(b: Backup, x: string, y: string, z: string, key: string)
    requires IsWord(b.user, Space)
    requires IsWord(x, Space) && IsWord(y, Space) && IsWord(z, Space) && IsWord(key, Space)
    requires b.Key() == x + ([' '] + (y + ([' '] + (z + ([' '] + key)))))
    ensures NewWords(b) == [b.vol, x, y, z, key, b.user]
  {
    FourWords(b.Key(), x, y, z, key);
    WordAlone(b.user, Space);
  }

  // A path with white space can be read as a record of another key: z becomes the volume of recovers for the first
  // backup's key.
  lemma Redirects(b: Backup, b': Backup, x: string, y: string, z: string, junk: Record)
    requires Answered(b) && IsWord(b.Key(), Space) && IsWord(b.user, Space) && Answered(b') && IsWord(b'.user, Space)
    requires IsWord(x, Space) && IsWord(y, Space) && IsWord(z, Space)
    requires b'.Key() == x + ([' '] + (y + ([' '] + (z + ([' '] + b.Key()))))) && b'.Key() != b.Key()
    ensures var rs := RecordsOf(FileAfter(FileAfter("", b, junk), b', junk), junk);
            FirstMatch(rs, ByKey(b.Key())) == Some(Record(b.vol, b.Key(), b.user)) &&
            LastMatch(rs, ByKey(b.Key())) == Some(Record(z, b.Key(), b'.user))
  {
    var r := Record(b.vol, b.Key(), b.user);
    FirstBackup(b, junk);
    MatchAt([r], ByKey(b'.Key()), 1);
    SplitsInTwo(FileAfter("", b, junk), b', x, y, z, b.Key(), junk);
    FirstAndLast(r, Record(b'.vol, x, y), Record(z, b.Key(), b'.user));
  }

  lemma FirstAndLast(first: Record, between: Record, last: Record)
    requires first.key == last.key
    ensures FirstMatch([first] + [between, last], ByKey(first.key)) == Some(first)
    ensures LastMatch([first] + [between, last], ByKey(first.key)) == Some(last)
  {
  }

  const FIRST_BACKUP := Backup("1.1.1.1", "/a", "u", "h", "/m", "v")
  const SECOND_BACKUP := Backup("2.2.2.2", "/x y z 1.1.1.1/a", "u", "h", "/m", "w")

  lemma SecondKey()
    ensures FIRST_BACKUP.Key() == "1.1.1.1/a" && SECOND_BACKUP.Key() != FIRST_BACKUP.Key()
    ensures SECOND_BACKUP.Key() == "2.2.2.2/x" + ([' '] + ("y" + ([' '] + ("z" + ([' '] + "1.1.1.1/a")))))
  {
    assert SECOND_BACKUP.Key()[0] == '2';
  }

  // After these two backups the first client's backups go to volume v and its recovers read from z.
  lemma SecondRedirectsFirst(junk: Record)
    ensures var rs := RecordsOf(FileAfter(FileAfter("", FIRST_BACKUP, junk), SECOND_BACKUP, junk), junk);
            FirstMatch(rs, ByKey("1.1.1.1/a")) == Some(Record("v", "1.1.1.1/a", "u")) &&
            LastMatch(rs, ByKey("1.1.1.1/a")) == Some(Record("z", "1.1.1.1/a", "u"))
  {
    SecondKey();
    Redirects(FIRST_BACKUP, SECOND_BACKUP, "2.2.2.2/x", "y", "z", junk);
  }

  // -------------------------------------------------------------------------------------- keys and bad fields

  // A dotted address has no slash and an absolute path starts with one, so the key determines both.
  lemma {:induction false} KeyDetermines(ip: string, path: string, ip': string, path': string)
    requires '/' !in ip && '/' !in ip' && path != [] && path[0] == '/' && path' != [] && path'[0] == '/'
    requires ip + path == ip' + path'
    ensures ip == ip' && path == path'
  {
    assert (ip + path)[0] == if ip == [] then '/' else ip[0];
    assert (ip' + path')[0] == if ip' == [] then '/' else ip'[0];
    if ip == [] {
      assert ip + path == path && ip' + path' == path';
    } else {
      assert (ip + path)[1..] == ip[1..] + path && (ip' + path')[1..] == ip'[1..] + path';
      KeyDetermines(ip[1..], path, ip'[1..], path');
    }
  }

  // Right after a backup a recover finds a volume for it exactly when its key is a word; with white space in it, no
  // record is ever read under that key.  (junk is what recover's buffers happen to hold, taken not to be that key.)
  lemma RecordedIffWord(text: string, b: Backup, junk: Record)
    requires WellFormed(text) && Answered(b) && junk.key != b.Key()
    ensures LastMatch(RecordsOf(FileAfter(text, b, junk), junk), ByKey(b.Key())).Some? <==> IsWord(b.Key(), Space)
  {
    var text' := FileAfter(text, b, junk);
    if IsWord(b.Key(), Space) {
      BackupRecorded(text, b, junk);
      var rs := RecordsOf(text', junk);
      FirstByKey(rs, b.Key());
      NoLastIff(rs, ByKey(b.Key()));
    } else {
      TokensAreWords(text', Space);
      if |Words(text')| >= 2 { DirtyKeyNotFound(Words(text')[2..], junk, b.Key()); }
      FirstByKey(RecordsOf(text', junk), b.Key());
      NoLastIff(RecordsOf(text', junk), ByKey(b.Key()));
    }
  }

  // The directories of two backups under one mount point are the same only for one volume, address and path, if the
  // names of the volumes have no slash in them.
  lemma DirDetermines(point: string, vol: string, ip: string, path: string, vol': string, ip': string, path': string)
    requires '/' !in vol && '/' !in vol' && '/' !in ip && '/' !in ip'
    requires path != [] && path[0] == '/' && path' != [] && path'[0] == '/'
    requires point + "/" + vol + "/" + (ip + path) == point + "/" + vol' + "/" + (ip' + path')
    ensures vol == vol' && ip == ip' && path == path'
  {
    var rest, rest' := "/" + (ip + path), "/" + (ip' + path');
    assert (point + "/" + vol + "/" + (ip + path))[|point| + 1..] == vol + rest;
    assert (point + "/" + vol' + "/" + (ip' + path'))[|point| + 1..] == vol' + rest';
    KeyDetermines(vol, rest, vol', rest');
    assert rest[1..] == ip + path && rest'[1..] == ip' + path';
    KeyDetermines(ip, path, ip', path');
  }

  // With a slash in the name of a volume two keys can share a directory.
  lemma SlashShares()
    ensures "/m" + "/" + "v/1.1.1.1" + "/" + ("2.2.2.2" + "/a") == "/m" + "/" + "v" + "/" + ("1.1.1.1" + "/2.2.2.2/a")
  {
  }
}
