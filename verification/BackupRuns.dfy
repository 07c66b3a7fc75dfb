/** Backups and recovers as turns of the worker, from the bytes of their requests to the directories that are copied
    (`ndmp_data_start_backup`, `ndmp_data_start_recover`). */
module BackupRuns {
  import opened Common
  import opened LinkedQueue
  import opened Xdr
  import opened Messages
  import opened Replies
  import opened DataStates
  import opened DataService
  import opened TextTokens
  import opened VolumeFile
  import opened Volumes
  import opened WireLayout
  import opened NdmpServer
  import opened Protocol
  import opened Threads
  import opened ServiceRuns

  // --------------------------------------------------------------------------------- what a client puts in a request

  predicate OneByte(s: string) { forall i :: 0 <= i < |s| ==> s[i] as int < 256 }

  // Pairs that a client encodes, name first, are the pairs that the server finds.
  lemma PairsFound(env: seq<Pval>, vs: seq<Value>)
    requires |vs| == |env| && HasType(Array(Struct([Text, Text])), Items(vs))
    requires forall i :: 0 <= i < |env| ==> OneByte(env[i].name) && OneByte(env[i].value)
    requires forall i :: 0 <= i < |env| ==> vs[i] == Items([Octets(Ascii(env[i].name)), Octets(Ascii(env[i].value))])
    ensures PvalsOf(Items(vs)) == env
  {
    forall i | 0 <= i < |vs| ensures PvalsOf(Items(vs))[i] == env[i] {
      PairsInOrder(Items(vs), i);
      CharsLayout(env[i].name);
      CharsLayout(env[i].value);
    }
    if vs != [] { PairsInOrder(Items(vs), 0); }
  }

  // The first name of a list that a client encodes: the original path, then the destination.
  lemma NameFound(names: Value, original: string, destination: string)
    requires HasType(Array(NAME), names) && names.items != [] && OneByte(original) && OneByte(destination)
    requires names.items[0].Items? && |names.items[0].items| > 1
    requires names.items[0].items[0] == Octets(Ascii(original)) && names.items[0].items[1] == Octets(Ascii(destination))
    ensures NameIn(names) == Some(Name(original, destination))
  {
    CharsLayout(original);
    CharsLayout(destination);
  }

  // The settings of a START_BACKUP are the values of the last pairs named FILESYSTEM and USER.
  lemma LastPairsCount(env: seq<Pval>, i: nat, j: nat)
    requires i < |env| && env[i].name == "FILESYSTEM" && forall k :: i < k < |env| ==> env[k].name != "FILESYSTEM"
    requires j < |env| && env[j].name == "USER" && forall k :: j < k < |env| ==> env[k].name != "USER"
    ensures AsksFor(env, Asked(env[i].value, env[j].value))
  {
    SettingIsLast(env, "FILESYSTEM", i);
    SettingIsLast(env, "USER", j);
  }

  // ---------------------------------------------------------------------------------------------------- one backup

  // What a START_BACKUP turn asks of the volume file.
  function BackupIn(t: Turn, a: Asked): Backup {
    Backup(t.sys.ip, a.path, a.user, t.sys.op.host, t.sys.op.point, t.sys.op.vol)
  }

  // The settings in the bytes of a START_BACKUP (0x401).
  predicate Backs(t: Turn, a: Asked) {
    Sends(t, 0x401) && HasType(Struct(BACKUP), t.sys.unset) && AsksFor(PairsIn(t), a)
  }

  lemma BackupLeaves(s: Service, t: Turn, a: Asked)
    requires Possible(s, t) && Backs(t, a)
    ensures Next(s, t).volumes == FileAfter(s.volumes, BackupIn(t, a), t.sys.junk)
    ensures HostWords(WithHost(s.volumes, t.sys.op.host, t.sys.op.point)) != []
    ensures Done(s, t).copy == BackupCopy(s.volumes, BackupIn(t, a), t.sys.op, t.sys.junk)
  {
    EffectIn(s, t);
    BackupServed(t.job.bytes, FoundIn(s, Fd(t)), t.sys, a);
    HostKnown(s.volumes, t.sys.op.host, t.sys.op.point);
    BackupSpelled(s.volumes, BackupIn(t, a), t.sys.op, t.sys.junk);
  }

  // A START_BACKUP of words that are not recorded leaves the records of the file, and behind them the operator's
  // volume, address and path, and user.
  lemma BackupRecords(s: Service, t: Turn, a: Asked)
    requires Possible(s, t) && Backs(t, a)
    requires WellFormed(s.volumes) && IsWord(t.sys.op.vol, Space)
    requires IsWord(t.sys.ip + a.path, Space) && IsWord(a.user, Space)
    requires FirstMatch(RecordsOf(s.volumes, t.sys.junk), ByKey(t.sys.ip + a.path)).None?
    ensures WellFormed(Next(s, t).volumes)
    ensures RecordsOf(Next(s, t).volumes, t.sys.junk) ==
            RecordsOf(s.volumes, t.sys.junk) + [Record(t.sys.op.vol, t.sys.ip + a.path, a.user)]
  {
    WordsKnown(s, t);
    BackupLeaves(s, t, a);
    CleanBackup(s.volumes, BackupIn(t, a), t.sys.junk);
  }

  lemma WordsKnown(s: Service, t: Turn)
    requires Possible(s, t) && !t.job.txn.isConnect
    ensures IsWord(t.sys.op.host, Space) && IsWord(t.sys.op.point, Space)
  {
  }

  // ------------------------------------------------------------------------------------------ runs of any requests

  // Only a START_BACKUP touches the file.
  lemma VolumesStay(s: Service, t: Turn)
    requires Possible(s, t) && !Sends(t, 0x401)
    ensures Next(s, t).volumes == s.volumes
  {
    if !t.job.txn.isConnect {
      EffectIn(s, t);
      OnlyBackup(NumberIn(t.job.bytes));
      VolumesBy(t.job.bytes, FoundIn(s, Fd(t)), t.sys, NumberIn(t.job.bytes));
    }
  }

  lemma OnlyBackup(n: int)
    ensures Dispatch(n).DataStartBackup? <==> n == 0x401
  {
  }

  lemma VolumesBy(request: seq<byte>, b: Before, sys: System, n: int)
    requires Handles(request, b, sys) && n == NumberIn(request) && !Dispatch(n).DataStartBackup?
    ensures RequestLeaves(request, b, sys).volumes == b.volumes
  {
    HeaderIn(request);
  }

  // A turn that keeps the form of the file it finds.
  ghost predicate KeepsFormIn(s: Service, t: Turn) {
    forall a :: Backs(t, a) ==> Answered(BackupIn(t, a)) && KeepsForm(s.volumes, BackupIn(t, a), t.sys.junk)
  }

  ghost predicate AllKeepForm(s: Service, turns: seq<Turn>)
    requires Runs(s, turns)
    decreases |turns|
  {
    turns == [] || (KeepsFormIn(s, turns[0]) && AllKeepForm(Next(s, turns[0]), turns[1..]))
  }

  // A good file, with this record as the first of its key.
  ghost predicate Holds(text: string, key: string, vol: string, host: seq<string>, junk: Record) {
    && Good(text, junk) && text != [] && HostWords(text) == host
    && FirstMatch(RecordsOf(text, junk), ByKey(key)).Some?
    && FirstMatch(RecordsOf(text, junk), ByKey(key)).value.vol == vol
  }

  lemma HoldsStep(s: Service, t: Turn, key: string, vol: string, host: seq<string>, junk: Record)
    requires Possible(s, t) && KeepsFormIn(s, t) && Holds(s.volumes, key, vol, host, junk)
    ensures Holds(Next(s, t).volumes, key, vol, host, junk)
  {
    if Sends(t, 0x401) {
      PairsKnown(s, t);
      var a :| AsksFor(PairsIn(t), a);
      BackupLeaves(s, t, a);
      BackupHolds(s.volumes, BackupIn(t, a), t.sys.junk, key, vol, host, junk);
    } else {
      VolumesStay(s, t);
    }
  }

  lemma BackupHolds(text: string, b: Backup, found: Record, key: string, vol: string, host: seq<string>, junk: Record)
    requires Answered(b) && KeepsForm(text, b, found) && Holds(text, key, vol, host, junk)
    ensures Holds(FileAfter(text, b, found), key, vol, host, junk)
  {
    JunkUnread(text, found, junk);
    KeepsFormIff(text, b, junk);
    RecordsStay(text, b, junk);
    KeyKept(RecordsOf(text, junk), RecordsOf(FileAfter(text, b, junk), junk), key);
  }

  lemma {:induction false} HoldsAlong(s: Service, turns: seq<Turn>, key: string, vol: string, host: seq<string>,
                                      junk: Record)
    requires Runs(s, turns) && AllKeepForm(s, turns) && Holds(s.volumes, key, vol, host, junk)
    ensures Holds(End(s, turns).volumes, key, vol, host, junk)
    decreases |turns|
  {
    if turns != [] {
      HoldsStep(s, turns[0], key, vol, host, junk);
      HoldsAlong(Next(s, turns[0]), turns[1..], key, vol, host, junk);
    }
  }

  // The settings and the first name in the bytes of a START_RECOVER (0x402).
  predicate Recovers(t: Turn, a: Asked, name: Name) {
    && Sends(t, 0x402) && HasType(Struct(RECOVER), t.sys.unset)
    && AsksFor(PvalsOf(ArgIn(RECOVER, t.job.bytes, t.sys.unset, 0)), a)
    && NameIn(ArgIn(RECOVER, t.job.bytes, t.sys.unset, 1)) == Some(name)
  }

  lemma RecoverCopies(s: Service, t: Turn, a: Asked, name: Name, vol: string, host: seq<string>, junk: Record)
    requires Possible(s, t) && Recovers(t, a, name) && Holds(s.volumes, t.sys.ip + a.path, vol, host, junk)
    ensures |host| == 2
    ensures Done(s, t).copy == Some(Copy(host[1] + "/" + vol + "/" + (t.sys.ip + a.path) + name.original,
                                         a.user + "@" + t.sys.ip + ":" + name.destination))
  {
    EffectIn(s, t);
    RecoverServed(t.job.bytes, FoundIn(s, Fd(t)), t.sys, a);
    JunkUnread(s.volumes, t.sys.junk, junk);
    FirstIsLast(RecordsOf(s.volumes, junk), t.sys.ip + a.path);
  }

  lemma BackupHeld(text: string, b: Backup, op: Operator, junk: Record)
    requires Good(text, junk) && Answered(b) && KeepsForm(text, b, junk) && IsWord(b.Key(), Space)
    requires b.host == op.host && b.point == op.point && HostWords(WithHost(text, b.host, b.point)) != []
    requires BackupCopy(text, b, op, junk).Some?
    ensures var host := HostWords(WithHost(text, b.host, b.point));
            && |host| == 2
            && BackupCopy(text, b, op, junk).value.target == host[1] + "/" + VolumeOf(text, b, junk) + "/" + b.Key()
            && Holds(FileAfter(text, b, junk), b.Key(), VolumeOf(text, b, junk), host, junk)
  {
    KeepsFormIff(text, b, junk);
    RecordsStay(text, b, junk);
    BackupRecorded(text, b, junk);
  }

  // A START_BACKUP whose key is a word, then any turns that keep the form of the file, then a START_RECOVER of the same
  // address and path, from whatever session: it copies from exactly the directory that the backup copied to, extended
  // by the original path that it names, to the client and the place it names.
  lemma RecoverReadsBackupTurn(s: Service, backup: Turn, turns: seq<Turn>, recover: Turn, a: Asked, a': Asked,
                               name: Name)
    requires Possible(s, backup) && Backs(backup, a) && Done(s, backup).copy.Some?
    requires Good(s.volumes, backup.sys.junk) && KeepsFormIn(s, backup) && IsWord(backup.sys.ip + a.path, Space)
    requires Runs(Next(s, backup), turns) && AllKeepForm(Next(s, backup), turns)
    requires Possible(End(Next(s, backup), turns), recover) && Recovers(recover, a', name)
    requires recover.sys.ip == backup.sys.ip && a'.path == a.path
    ensures Done(End(Next(s, backup), turns), recover).copy ==
            Some(Copy(Done(s, backup).copy.value.target + name.original,
                      a'.user + "@" + backup.sys.ip + ":" + name.destination))
  {
    var b, junk := BackupIn(backup, a), backup.sys.junk;
    BackupLeaves(s, backup, a);
    BackupHeld(s.volumes, b, backup.sys.op, junk);
    var vol, host := VolumeOf(s.volumes, b, junk), HostWords(WithHost(s.volumes, b.host, b.point));
    HoldsAlong(Next(s, backup), turns, b.Key(), vol, host, junk);
    RecoverCopies(End(Next(s, backup), turns), recover, a', name, vol, host, junk);
  }
}
