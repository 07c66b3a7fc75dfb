/** The handlers of `ndmp_data.c` and `ndmp_connect.c` on session records, the server-wide environment and the volume
    file.  What the operator would type and whether the commands succeed are inputs. */
module DataService {
  import opened Common
  import opened LinkedQueue
  import opened TextTokens
  import opened VolumeFile
  import opened Volumes
  import opened DataStates
  import opened Sessions

  datatype Operator = Operator(host: string, point: string, vol: string, mounts: bool, copies: bool)

  function Named(name: string): Pval -> bool { (p: Pval) => p.name == name }

  // The last pair with a name, as the scan of the environment leaves it.
  function Setting(env: seq<Pval>, name: string): Option<string> {
    match LastMatch(env, Named(name)) case None => None case Some(p) => Some(p.value)
  }

  // A setting is the value of the last pair with its name, and there is none exactly without such a pair.
  lemma SettingIsLast(env: seq<Pval>, name: string, k: nat)
    requires k < |env| && env[k].name == name && forall i :: k < i < |env| ==> env[i].name != name
    ensures Setting(env, name) == Some(env[k].value)
  {
    LastAt(env, Named(name), k);
  }

  lemma NoSettingIff(env: seq<Pval>, name: string)
    ensures Setting(env, name) == None <==> forall i :: 0 <= i < |env| ==> env[i].name != name
  {
    NoLastIff(env, Named(name));
  }

  // The two arguments of rsync.
  datatype Copy = Copy(source: string, target: string)

  // The first name of a recover request, as far as it is used.
  datatype Name = Name(original: string, destination: string)

  // What a start of a backup asks of the volume file.
  function BackupOf(env: seq<Pval>, ip: string, op: Operator): Backup
    requires Setting(env, "FILESYSTEM").Some? && Setting(env, "USER").Some?
  {
    Backup(ip, Setting(env, "FILESYSTEM").value, Setting(env, "USER").value, op.host, op.point, op.vol)
  }

  // The mount is attempted only for a client path that the file did not record; a failure skips the copy.
  function BackupWorks(text: string, b: Backup, op: Operator, junk: Record): bool {
    (FirstMatch(RecordsOf(text, junk), ByKey(b.Key())).Some? || op.mounts) && op.copies
  }

  // A backup copies from the client into its directory, unless the mount of a new volume failed.
  function BackupCopy(text: string, b: Backup, op: Operator, junk: Record): Option<Copy>
    requires HostWords(WithHost(text, b.host, b.point)) != []
  {
    if FirstMatch(RecordsOf(text, junk), ByKey(b.Key())).None? && !op.mounts then None
    else Some(Copy(b.user + "@" + b.ip + ":" + b.path + "/", BackupDir(text, b, junk)))
  }

  // A recover copies from the directory that the file records to where the client wants it.  Without a record or a
  // name the source uses what uninitialised buffers hold.
  function RecoverCopy(text: string, env: seq<Pval>, ip: string, name: Option<Name>, junk: Record): Option<Copy>
    requires Setting(env, "FILESYSTEM").Some? && Setting(env, "USER").Some?
  {
    if name.None? then None else
    match RecoverDir(text, ip, Setting(env, "FILESYSTEM").value, name.value.original, junk)
    case None => None
    case Some(dir) => Some(Copy(dir, Setting(env, "USER").value + "@" + ip + ":" + name.value.destination))
  }

  class DataService {
    var env: seq<Pval>            // get_environment()
    var volumes: string           // the file gluster_vol_usage

    constructor (volumes: string)
      ensures env == [] && this.volumes == volumes
    {
      env := [];
      this.volumes := volumes;
    }

    // The scan of the request's environment for FILESYSTEM and USER.
    method ScanEnv(pvals: seq<Pval>) returns (path: Option<string>, user: Option<string>)
      ensures path == Setting(pvals, "FILESYSTEM") && user == Setting(pvals, "USER")
    {
      path, user := None, None;
      for i := 0 to |pvals|
        invariant path == Setting(pvals[..i], "FILESYSTEM") && user == Setting(pvals[..i], "USER")
      {
        assert pvals[..i + 1][..i] == pvals[..i];
        if pvals[i].name == "FILESYSTEM" {
          path := Some(pvals[i].value);
        }
        if pvals[i].name == "USER" {
          user := Some(pvals[i].value);
        }
      }
      assert pvals[..|pvals|] == pvals;
    }

    method DataListen(session: SessionInfo, addrType: int) returns (error: int)
      modifies session`dataState
      ensures error == ErrorOf(old(session.dataState), Listen(addrType))
      ensures session.dataState == NextState(old(session.dataState), Listen(addrType))
    {
      error := NO_ERR;
      if session.dataState != IDLE {
        error := ILLEGAL_STATE_ERR;
      } else {
        if addrType == ADDR_LOCAL {
          session.dataState := LISTENING;
        } else {
          error := ILLEGAL_ARGS_ERR;
        }
      }
    }

    method DataConnect(session: SessionInfo, addrType: int) returns (error: int)
      modifies session`dataState
      ensures error == ErrorOf(old(session.dataState), Connect(addrType))
      ensures session.dataState == NextState(old(session.dataState), Connect(addrType))
    {
      error := NO_ERR;
      if session.dataState != IDLE {
        error := ILLEGAL_STATE_ERR;
      } else {
        if addrType == ADDR_LOCAL {
          session.dataState := CONNECTED;
        } else {
          error := ILLEGAL_ARGS_ERR;
        }
      }
    }

    // A wrong state only sets the error: the backup goes on, records its volume and replaces the environment.
    method DataStartBackup(session: SessionInfo, pvals: seq<Pval>, ip: string, op: Operator, junk: Record)
      returns (error: int, copy: Option<Copy>)
      requires Setting(pvals, "FILESYSTEM").Some? && Setting(pvals, "USER").Some?
      requires HostWords(WithHost(volumes, op.host, op.point)) != []
      modifies session`dataState, this
      ensures var b := BackupOf(pvals, ip, op);
              var req := StartBackup(pvals, BackupWorks(old(volumes), b, op, junk));
              error == ErrorOf(old(session.dataState), req) &&
              session.dataState == NextState(old(session.dataState), req) && env == NextEnv(0, old(env), req) &&
              volumes == FileAfter(old(volumes), b, junk) && copy == BackupCopy(old(volumes), b, op, junk)
    {
      error := NO_ERR;
      if session.dataState != CONNECTED {
        error := ILLEGAL_STATE_ERR;
      } else {
        session.dataState := ACTIVE;
      }
      env := CopyEnv(pvals);
      var path, user := ScanEnv(pvals);
      var b := Backup(ip, path.value, user.value, op.host, op.point, op.vol);
      var vol, point, isNew := SelectVolume(b, junk);
      copy := None;
      if isNew && !op.mounts {
        error := ILLEGAL_STATE_ERR;
        session.dataState := HALTED;
      } else {
        copy := Some(Copy(b.user + "@" + ip + ":" + b.path + "/", point + "/" + vol + "/" + (ip + b.path)));
        if !op.copies {
          error := ILLEGAL_STATE_ERR;
          session.dataState := HALTED;
        }
      }
      session.dataState := HALTED;
    }

    // The element-wise copy of the request's environment.
    method CopyEnv(pvals: seq<Pval>) returns (copy: seq<Pval>)
      ensures copy == pvals
    {
      copy := [];
      for i := 0 to |pvals|
        invariant copy == pvals[..i]
      {
        copy := copy + [Pval(pvals[i].name, pvals[i].value)];
      }
    }

    // The volume for a backup: read the list, complete the host line, look the key up, ask and append if it is new.
    method SelectVolume(b: Backup, junk: Record) returns (vol: string, point: string, isNew: bool)
      requires HostWords(WithHost(volumes, b.host, b.point)) != []
      modifies this`volumes
      ensures volumes == FileAfter(old(volumes), b, junk) && vol == VolumeOf(old(volumes), b, junk)
      ensures isNew == FirstMatch(RecordsOf(old(volumes), junk), ByKey(b.Key())).None?
      ensures point == HostWords(WithHost(old(volumes), b.host, b.point))[1]
    {
      var head, flag, nodes := InitVolFsList(volumes, junk);
      volumes := WithHost(volumes, b.host, b.point);
      point := Tokens(volumes, Space)[1];
      var found := VolumeFile.Find(head, b.Key(), nodes);
      isNew := found == null;
      if found != null {
        vol := found.record.vol;
      } else {
        vol := b.vol;
        volumes := volumes + RecordLine(Record(vol, b.Key(), b.user));
      }
    }

    // The recover's scan of the file: every record with the key overwrites the volume.
    method LastVolume(key: string, junk: Record) returns (vol: Option<string>)
      ensures var found := LastMatch(RecordsOf(volumes, junk), ByKey(key));
              vol == match found case None => None case Some(r) => Some(r.vol)
    {
      var words := Tokens(volumes, Space);
      vol := None;
      if |words| < 2 {
        return;
      }
      words := words[2..];
      var temp := junk;
      ghost var read := [];
      while words != []
        invariant RecordsOf(volumes, junk) == read + Scan(words, temp)
        invariant vol == match LastMatch(read, ByKey(key)) case None => None case Some(r) => Some(r.vol)
        decreases |words|
      {
        ghost var was := Scan(words, temp);
        ScanStep(words, temp);
        temp := Record(words[0], if |words| > 1 then words[1] else temp.key,
                       if |words| > 2 then words[2] else temp.user);
        words := if |words| <= 3 then [] else words[3..];
        if temp.key == key {
          vol := Some(temp.vol);
        }
        ReadOn(read, temp, Scan(words, temp), was);
        LastOfAppended(read, temp, key);
        read := read + [temp];
      }
      assert read + [] == read;
    }

    // Reads nothing but the file.
    method DataStartRecover(session: SessionInfo, pvals: seq<Pval>, name: Option<Name>, ip: string, copies: bool,
                            junk: Record)
      returns (error: int, copy: Option<Copy>)
      requires Setting(pvals, "FILESYSTEM").Some? && Setting(pvals, "USER").Some?
      modifies session`dataState
      ensures error == ErrorOf(old(session.dataState), StartRecover(copies))
      ensures session.dataState == NextState(old(session.dataState), StartRecover(copies))
      ensures copy == RecoverCopy(volumes, pvals, ip, name, junk)
    {
      error := NO_ERR;
      if session.dataState != CONNECTED {
        error := ILLEGAL_STATE_ERR;
      } else {
        session.dataState := ACTIVE;
      }
      var path, user := ScanEnv(pvals);
      var vol := LastVolume(ip + path.value, junk);
      copy := None;
      if name.Some? && HostWords(volumes) != [] && vol.Some? {
        var dir := HostWords(volumes)[1] + "/" + vol.value + "/" + (ip + path.value) + name.value.original;
        copy := Some(Copy(dir, user.value + "@" + ip + ":" + name.value.destination));
      }
      if !copies {
        error := ILLEGAL_STATE_ERR;
        session.dataState := HALTED;
      }
      session.dataState := HALTED;
    }

    method DataAbort(session: SessionInfo) returns (error: int)
      modifies session`dataState
      ensures error == ErrorOf(old(session.dataState), Abort)
      ensures session.dataState == NextState(old(session.dataState), Abort)
    {
      if session.dataState == HALTED || session.dataState == IDLE {
        error := ILLEGAL_STATE_ERR;
      } else {
        session.dataState := HALTED;
        error := NO_ERR;
      }
    }

    method DataStop(session: SessionInfo) returns (error: int)
      modifies session`dataState, this`env
      ensures error == ErrorOf(old(session.dataState), Stop)
      ensures session.dataState == NextState(old(session.dataState), Stop)
      ensures env == NextEnv(old(session.dataState), old(env), Stop)
    {
      if session.dataState != HALTED {
        error := ILLEGAL_STATE_ERR;
      } else {
        session.dataState := IDLE;
        env := [];
        error := NO_ERR;
      }
    }

    // The guard of the source is always true: a state is not both ACTIVE and HALTED.
    method DataGetEnv(session: SessionInfo) returns (error: int, reply: seq<Pval>)
      ensures error == ErrorOf(session.dataState, GetEnv) && reply == env
    {
      error, reply := NO_ERR, [];
      if session.dataState != ACTIVE || session.dataState != HALTED {
        error := NO_ERR;
        reply := CopyEnv(env);
      } else {
        error := ILLEGAL_STATE_ERR;
      }
    }

    // Version 0 leaves the source's error unset.
    method ConnectOpen(session: SessionInfo, version: int) returns (error: int)
      requires 0 < version || session.connectionState != CONN_LISTEN
      modifies session`connectionState
      ensures error == if old(session.connectionState) != CONN_LISTEN then ILLEGAL_STATE_ERR
                       else if version > 3 then ILLEGAL_ARGS_ERR else NO_ERR
      ensures session.connectionState == if error == NO_ERR then CONN_CONNECTED else old(session.connectionState)
    {
      if session.connectionState != CONN_LISTEN {
        error := ILLEGAL_STATE_ERR;
      } else if 1 <= version <= 3 {
        error := NO_ERR;
      } else {
        error := ILLEGAL_ARGS_ERR;
      }
      if error == NO_ERR {
        session.connectionState := CONN_CONNECTED;
      }
    }

    method ConnectCloseSession(session: SessionInfo)
      modifies session`connectionState, session`dataState, session`moverState
      ensures session.connectionState == CONN_HALTED && session.moverState == CONN_HALTED
      ensures session.dataState == NextState(old(session.dataState), Close) == CONNECTED
    {
      session.connectionState, session.dataState, session.moverState := CONN_HALTED, CONN_HALTED, CONN_HALTED;
    }
  }

  lemma LastOfAppended(rs: seq<Record>, r: Record, key: string)
    ensures LastMatch(rs + [r], ByKey(key)) == if r.key == key then Some(r) else LastMatch(rs, ByKey(key))
  {
    assert (rs + [r])[..|rs|] == rs;
  }
}
