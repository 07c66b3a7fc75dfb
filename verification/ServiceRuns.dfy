/** Any list of the worker's turns, as the loop of `run_job` makes them: what the records, the environment and the
    clients have of it, in terms of the bytes of the requests. */
module ServiceRuns {
  import opened Common
  import opened Xdr
  import opened Messages
  import opened Replies
  import opened DataStates
  import opened NdmpServer
  import opened DataService
  import opened Protocol
  import opened Threads
  import opened Pipeline
  import opened Worker

  // A turn of the worker, and whether its cleanup keeps the session's record.
  datatype Turn = Turn(job: Job, sys: System, kept: bool)

  function Fd(t: Turn): int { t.job.txn.peer.fd }

  ghost predicate Possible(s: Service, t: Turn) { Expected(t.job, FoundIn(s, Fd(t)), t.sys).Some? }

  ghost function Done(s: Service, t: Turn): After
    requires Possible(s, t)
  {
    Expected(t.job, FoundIn(s, Fd(t)), t.sys).value
  }

  ghost function Next(s: Service, t: Turn): Service
    requires Possible(s, t)
  {
    ServiceAfter(s, Fd(t), Done(s, t).next, t.kept)
  }

  // One turn of run_job on the heap is one of the service.
  method RunTurn(threads: Threads, ghost s: State, sys: System) returns (ghost s': State, ghost turn: Turn)
    requires threads.Shows(s) && s.worker.Idle? && threads.requestJobs != []
    requires Possible(threads.Held(), Turn(threads.requestJobs[0], sys, true))
    modifies threads`requestJobs, threads`replyJobs, threads.table, threads.table.Repr, threads.server`sequence,
             threads.server.data
    ensures turn == Turn(old(threads.requestJobs[0]), sys, Fd(turn) in s'.table) && Possible(old(threads.Held()), turn)
    ensures threads.Held() == Next(old(threads.Held()), turn) && threads.Replied(Done(old(threads.Held()), turn))
    ensures threads.Shows(s') && s' == AfterJob(s, AnswerTo(turn.job))
  {
    ghost var job := threads.requestJobs[0];
    ghost var after;
    s', after := threads.RunJob(s, sys);
    turn := Turn(job, sys, job.txn.peer.fd in s'.table);
  }

  // A record that terminate_session adds between two turns is like none to every handler.
  lemma AddedRecord(s: Service, fd: int, t: Turn)
    requires fd !in s.states
    ensures var s' := s.(states := s.states[fd := UNUSED]);
            (Possible(s', t) <==> Possible(s, t)) &&
            (Possible(s, t) ==> Done(s', t) == Done(s, t) &&
                                forall i :: FoundIn(Next(s', t), i) == FoundIn(Next(s, t), i))
  {
    var s' := s.(states := s.states[fd := UNUSED]);
    assert FoundIn(s', Fd(t)) == FoundIn(s, Fd(t));
  }

  // A record that is not there is found in the first states of all three enums.
  lemma UnusedStates(s: Service, fd: int)
    requires fd !in s.states
    ensures FoundIn(s, fd).states == States(1, 0, 0)
  {
  }

  // --------------------------------------------------------------------------------------------------------- runs

  ghost predicate Runs(s: Service, turns: seq<Turn>)
    decreases |turns|
  {
    turns == [] || (Possible(s, turns[0]) && Runs(Next(s, turns[0]), turns[1..]))
  }

  ghost function End(s: Service, turns: seq<Turn>): Service
    requires Runs(s, turns)
    decreases |turns|
  {
    if turns == [] then s else End(Next(s, turns[0]), turns[1..])
  }

  // A request of a client, with this message number in its bytes.
  predicate Sends(t: Turn, number: int) {
    !t.job.txn.isConnect && |t.job.bytes| >= 28 && NumberIn(t.job.bytes) == number
  }

  // What becomes of a transaction: an accept's, and a 0xf001, get a greeting, a close (0x902) nothing, others a reply.
  lemma AnswerByNumber(s: Service, t: Turn)
    requires Possible(s, t)
    ensures AnswerTo(t.job) == if t.job.txn.isConnect || Sends(t, 0xf001) then Some(Notify)
                               else if Sends(t, 0x902) then None else Some(Reply)
  {
    if !t.job.txn.isConnect { EffectIn(s, t); }
  }

  // The error that the client reads.
  ghost function ErrorRead(s: Service, t: Turn): int
    requires Possible(s, t)
  {
    if Done(s, t).received.Some? then Done(s, t).received.value.header.error else -1
  }

  // What a turn comes to is the effect of its request.
  lemma EffectIn(s: Service, t: Turn)
    requires Possible(s, t) && !t.job.txn.isConnect
    ensures Handles(t.job.bytes, FoundIn(s, Fd(t)), t.sys) && Sends(t, NumberIn(t.job.bytes))
    ensures HeaderOf(t.job.bytes).message == NumberIn(t.job.bytes)
    ensures EffectOf(t.job.bytes, FoundIn(s, Fd(t)), t.sys) ==
            Effect(Done(s, t).received, Done(s, t).next, Done(s, t).copy)
  {
    HandlesIff(t.job.bytes, FoundIn(s, Fd(t)), t.sys);
    HeaderIn(t.job.bytes);
  }

  // The request that the bytes of a turn are to the data machine, if any, and the end of its record, if so.
  ghost function RequestIn(s: Service, t: Turn): Option<Request>
    requires Possible(s, t)
  {
    if t.job.txn.isConnect then None
    else RequestOf(MessageOf(t.job), ArgsOfRequest(t.job.bytes, t.sys), s.volumes, t.sys)
  }

  function EventsFor(fd: int, req: Option<Request>, kept: bool): seq<Event> {
    (if req.None? then [] else [Event(fd, req.value)]) + if kept then [] else [Freed(fd)]
  }

  ghost function EventsIn(s: Service, t: Turn): seq<Event>
    requires Possible(s, t)
  {
    EventsFor(Fd(t), RequestIn(s, t), t.kept)
  }

  ghost function Events(s: Service, turns: seq<Turn>): seq<Event>
    requires Runs(s, turns)
    decreases |turns|
  {
    if turns == [] then [] else EventsIn(s, turns[0]) + Events(Next(s, turns[0]), turns[1..])
  }

  ghost predicate Agrees(s: Service, d: Data) {
    s.env == d.env && forall fd :: FoundIn(s, fd).states.data == StateOf(d, fd)
  }

  ghost predicate AgreesAfter(s: Service, es: seq<Event>) { Agrees(s, At(es, |es|)) }

  lemma {:induction false} PrefixAt(es: seq<Event>, more: seq<Event>, n: nat)
    requires n <= |es|
    ensures At(es + more, n) == At(es, n)
  {
    if n > 0 { PrefixAt(es, more, n - 1); }
  }

  lemma AtAppend(es: seq<Event>, e: Event)
    ensures At(es + [e], |es| + 1) == DataStates.Step(At(es, |es|), e)
  {
    PrefixAt(es, [e], |es|);
  }

  // What a handler leaves of the data state and the environment.
  lemma RequestLeft(s: Service, t: Turn)
    requires Possible(s, t)
    ensures var left, found, req := Done(s, t).next, FoundIn(s, Fd(t)), RequestIn(s, t);
            if req.None? then left.states.data == found.states.data && left.env == s.env
            else left.states.data == NextState(found.states.data, req.value) &&
                 left.env == NextEnv(found.states.data, s.env, req.value)
  {
  }

  function AfterRequest(d: Data, fd: int, req: Option<Request>): Data {
    if req.None? then d else DataStates.Step(d, Event(fd, req.value))
  }

  lemma LeftAgrees(s: Service, fd: int, left: Before, req: Option<Request>, d: Data, kept: bool)
    requires Agrees(s, d)
    requires if req.None? then left.states.data == FoundIn(s, fd).states.data && left.env == s.env
             else left.states.data == NextState(FoundIn(s, fd).states.data, req.value) &&
                  left.env == NextEnv(FoundIn(s, fd).states.data, s.env, req.value)
    ensures var d' := AfterRequest(d, fd, req);
            Agrees(ServiceAfter(s, fd, left, kept), if kept then d' else DataStates.Step(d', Freed(fd)))
  {
    var s', d' := ServiceAfter(s, fd, left, kept), AfterRequest(d, fd, req);
    var last := if kept then d' else DataStates.Step(d', Freed(fd));
    assert StateOf(d, fd) == FoundIn(s, fd).states.data;
    forall i ensures FoundIn(s', i).states.data == StateOf(last, i) {
      assert StateOf(d, i) == FoundIn(s, i).states.data;
    }
  }

  lemma AtEvents(es: seq<Event>, fd: int, req: Option<Request>, kept: bool)
    ensures var d, more := AfterRequest(At(es, |es|), fd, req), EventsFor(fd, req, kept);
            At(es + more, |es + more|) == if kept then d else DataStates.Step(d, Freed(fd))
  {
    var first := EventsFor(fd, req, true);
    if req.Some? { AtAppend(es, Event(fd, req.value)); }
    assert es + [] == es && first == if req.None? then [] else [Event(fd, req.value)];
    if !kept {
      AtAppend(es + first, Freed(fd));
      assert es + EventsFor(fd, req, false) == es + first + [Freed(fd)];
    }
  }

  lemma TurnAgrees(s: Service, t: Turn, es: seq<Event>)
    requires Possible(s, t) && AgreesAfter(s, es)
    ensures AgreesAfter(Next(s, t), es + EventsIn(s, t))
  {
    RequestLeft(s, t);
    LeftAgrees(s, Fd(t), Done(s, t).next, RequestIn(s, t), At(es, |es|), t.kept);
    AtEvents(es, Fd(t), RequestIn(s, t), t.kept);
  }

  lemma {:induction false} AgreesAlong(s: Service, turns: seq<Turn>, es: seq<Event>)
    requires Runs(s, turns) && AgreesAfter(s, es)
    ensures AgreesAfter(End(s, turns), es + Events(s, turns))
    decreases |turns|
  {
    if turns == [] {
      assert es + [] == es;
    } else {
      TurnAgrees(s, turns[0], es);
      AgreesAlong(Next(s, turns[0]), turns[1..], es + EventsIn(s, turns[0]));
      ConcatAssociative(es, EventsIn(s, turns[0]), Events(Next(s, turns[0]), turns[1..]));
    }
  }

  lemma ConcatAssociative(a: seq<Event>, b: seq<Event>, c: seq<Event>)
    ensures a + (b + c) == a + b + c
  {
  }

  // From the start of the program, the data states of all records and the environment are those of the data machine
  // on the events read from the bytes of the requests.
  lemma DataOfBytes(volumes: string, turns: seq<Turn>)
    requires Runs(Service(map[], [], volumes, 1), turns)
    ensures var s, es := Service(map[], [], volumes, 1), Events(Service(map[], [], volumes, 1), turns);
            (forall fd :: FoundIn(End(s, turns), fd).states.data == StateAt(es, fd, |es|)) &&
            End(s, turns).env == At(es, |es|).env
  {
    AgreesAlong(Service(map[], [], volumes, 1), turns, []);
    assert [] + Events(Service(map[], [], volumes, 1), turns) == Events(Service(map[], [], volumes, 1), turns);
  }

  predicate Matches(handler: Handler, req: Option<Request>, copies: bool) {
    match handler
    case DataAbort => req == Some(Abort)
    case DataGetEnv => req == Some(GetEnv)
    case DataStop => req == Some(Stop)
    case ConnectClose => req == Some(Close)
    case DataStartRecover => req == Some(StartRecover(copies))
    case DataStartBackup => req.Some? && req.value.StartBackup?
    case DataListen => req.Some? && req.value.Listen?
    case DataConnect => req.Some? && req.value.Connect?
    case _ => req == None
  }

  lemma RequestByHandler(s: Service, t: Turn)
    requires Possible(s, t) && !t.job.txn.isConnect
    ensures Matches(Dispatch(MessageOf(t.job)), RequestIn(s, t), t.sys.op.copies)
  {
  }

  lemma EventFor(n: int, req: Option<Request>, copies: bool)
    requires Matches(Dispatch(n), req, copies)
    ensures (n == 0x403 <==> req == Some(Abort)) && (n == 0x404 <==> req == Some(GetEnv))
    ensures (n == 0x407 <==> req == Some(Stop)) && (n == 0x902 <==> req == Some(Close))
    ensures n == 0x402 <==> req == Some(StartRecover(copies))
    ensures n == 0x401 <==> req.Some? && req.value.StartBackup?
    ensures n == 0x409 <==> req.Some? && req.value.Listen?
    ensures n == 0x40A <==> req.Some? && req.value.Connect?
  {
  }

  // Which event the bytes of a request are, by their message number; the other numbers are none.
  lemma EventOfNumber(s: Service, t: Turn)
    requires Possible(s, t) && !t.job.txn.isConnect
    ensures Sends(t, 0x403) <==> RequestIn(s, t) == Some(Abort)
    ensures Sends(t, 0x404) <==> RequestIn(s, t) == Some(GetEnv)
    ensures Sends(t, 0x407) <==> RequestIn(s, t) == Some(Stop)
    ensures Sends(t, 0x902) <==> RequestIn(s, t) == Some(Close)
    ensures Sends(t, 0x402) <==> RequestIn(s, t) == Some(StartRecover(t.sys.op.copies))
    ensures Sends(t, 0x401) <==> RequestIn(s, t).Some? && RequestIn(s, t).value.StartBackup?
    ensures Sends(t, 0x409) <==> RequestIn(s, t).Some? && RequestIn(s, t).value.Listen?
    ensures Sends(t, 0x40A) <==> RequestIn(s, t).Some? && RequestIn(s, t).value.Connect?
  {
    EffectIn(s, t);
    RequestByHandler(s, t);
    EventFor(NumberIn(t.job.bytes), RequestIn(s, t), t.sys.op.copies);
  }

  // --------------------------------------------------------------------------------------------- the environment

  // The pairs in the bytes of a START_BACKUP.
  function PairsIn(t: Turn): seq<Pval>
    requires Sends(t, 0x401) && HasType(Struct(BACKUP), t.sys.unset)
  {
    PvalsOf(ArgIn(BACKUP, t.job.bytes, t.sys.unset, 1))
  }

  // What the events take from the arguments: an address type, or the pairs.
  lemma ListenArg(s: Service, t: Turn)
    requires Possible(s, t) && Sends(t, 0x409)
    ensures HasType(Struct(LISTEN), t.sys.unset)
    ensures RequestIn(s, t) == Some(Listen(ArgIn(LISTEN, t.job.bytes, t.sys.unset, 0).n))
  {
    EffectIn(s, t);
    AddressSchemas();
    AddressArg(t.job.bytes, FoundIn(s, Fd(t)), t.sys, 0x409, LISTEN);
  }

  lemma ConnectArg(s: Service, t: Turn)
    requires Possible(s, t) && Sends(t, 0x40A)
    ensures HasType(Struct(CONNECT), t.sys.unset)
    ensures RequestIn(s, t) == Some(Connect(ArgIn(CONNECT, t.job.bytes, t.sys.unset, 0).tag))
  {
    EffectIn(s, t);
    AddressSchemas();
    AddressArg(t.job.bytes, FoundIn(s, Fd(t)), t.sys, 0x40A, CONNECT);
  }

  lemma BackupArg(s: Service, t: Turn)
    requires Possible(s, t) && Sends(t, 0x401)
    ensures HasType(Struct(BACKUP), t.sys.unset) && RequestIn(s, t).Some?
    ensures RequestIn(s, t).value.StartBackup? && RequestIn(s, t).value.env == PairsIn(t)
  {
    EffectIn(s, t);
    StartSchemas();
    StartArgs(t.job.bytes, FoundIn(s, Fd(t)), t.sys, 0x401, BACKUP, 1);
  }

  lemma PairsKnown(s: Service, t: Turn)
    requires Possible(s, t) && Sends(t, 0x401)
    ensures HasType(Struct(BACKUP), t.sys.unset)
    ensures exists a :: AsksFor(PairsIn(t), a)
  {
    EffectIn(s, t);
    StartSchemas();
    StartArgs(t.job.bytes, FoundIn(s, Fd(t)), t.sys, 0x401, BACKUP, 1);
    var env := PairsIn(t);
    assert AsksFor(env, Asked(Setting(env, "FILESYSTEM").value, Setting(env, "USER").value));
  }

  // A DATA_STOP whose client reads that it succeeded.
  ghost predicate StopsIn(s: Service, t: Turn)
    requires Possible(s, t)
  {
    Sends(t, 0x407) && ErrorRead(s, t) == 0
  }

  lemma BackupWrites(s: Service, t: Turn)
    requires Possible(s, t) && Sends(t, 0x401)
    ensures HasType(Struct(BACKUP), t.sys.unset) && Next(s, t).env == PairsIn(t)
  {
    PairsKnown(s, t);
    EffectIn(s, t);
    var a :| AsksFor(PairsIn(t), a);
    BackupServed(t.job.bytes, FoundIn(s, Fd(t)), t.sys, a);
  }

  lemma StopClears(s: Service, t: Turn)
    requires Possible(s, t) && Sends(t, 0x407)
    ensures Next(s, t).env == if ErrorRead(s, t) == 0 then [] else s.env
  {
    EffectIn(s, t);
    StopServed(t.job.bytes, FoundIn(s, Fd(t)), t.sys);
  }

  lemma OthersKeep(s: Service, t: Turn)
    requires Possible(s, t) && !Sends(t, 0x401) && !Sends(t, 0x407)
    ensures Next(s, t).env == s.env
  {
    RequestLeft(s, t);
    if !t.job.txn.isConnect { EventOfNumber(s, t); }
  }

  ghost predicate Stopped(s: Service, turns: seq<Turn>)
    requires Runs(s, turns)
    decreases |turns|
  {
    turns != [] && (StopsIn(s, turns[0]) || Stopped(Next(s, turns[0]), turns[1..]))
  }

  predicate NoneSends(turns: seq<Turn>, number: int) { forall t :: t in turns ==> !Sends(t, number) }

  lemma {:induction false} EnvKept(s: Service, turns: seq<Turn>)
    requires Runs(s, turns) && NoneSends(turns, 0x401)
    ensures End(s, turns).env == if Stopped(s, turns) then [] else s.env
    decreases |turns|
  {
    if turns != [] {
      assert turns[0] in turns;
      if Sends(turns[0], 0x407) { StopClears(s, turns[0]); } else { OthersKeep(s, turns[0]); }
      EnvKept(Next(s, turns[0]), turns[1..]);
    }
  }

  // What the client of a GET_ENV (0x404) reads: the pairs in the bytes of the latest START_BACKUP (0x401) of any
  // session, refused or not; none if the client of some DATA_STOP (0x407) after it read that it succeeded.
  lemma GetEnvReads(s: Service, backup: Turn, turns: seq<Turn>, get: Turn)
    requires Possible(s, backup) && Sends(backup, 0x401)
    requires Runs(Next(s, backup), turns) && NoneSends(turns, 0x401)
    requires Possible(End(Next(s, backup), turns), get) && Sends(get, 0x404)
    ensures HasType(Struct(BACKUP), backup.sys.unset)
    ensures var env := if Stopped(Next(s, backup), turns) then [] else PairsIn(backup);
            var received := Done(End(Next(s, backup), turns), get).received;
            received.Some? && received.value.body == Some(Items([N(0), EnvValue(env)]))
  {
    var s' := End(Next(s, backup), turns);
    BackupWrites(s, backup);
    EnvKept(Next(s, backup), turns);
    EffectIn(s', get);
    GetEnvServed(get.job.bytes, FoundIn(s', Fd(get)), get.sys);
  }

  // ---------------------------------------------------------------------------------------- the connection state

  // A close (0x902), or an open (0x900) whose client reads that it succeeded.
  ghost predicate Settles(s: Service, t: Turn)
    requires Possible(s, t)
  {
    Sends(t, 0x902) || (Sends(t, 0x900) && ErrorRead(s, t) == 0)
  }

  ghost predicate Settled(s: Service, turns: seq<Turn>, fd: int)
    requires Runs(s, turns)
    decreases |turns|
  {
    turns != [] && ((Fd(turns[0]) == fd && Settles(s, turns[0])) || Settled(Next(s, turns[0]), turns[1..], fd))
  }

  // No turn frees the record of fd.
  predicate Keeps(turns: seq<Turn>, fd: int) { forall t :: t in turns && Fd(t) == fd ==> t.kept }

  // Opens and closes move the connection state, nothing else does.
  lemma ConnLeft(s: Service, t: Turn)
    requires Possible(s, t)
    ensures Done(s, t).next.states.conn == 1 <==> FoundIn(s, Fd(t)).states.conn == 1 && !Settles(s, t)
  {
    if !t.job.txn.isConnect {
      EffectIn(s, t);
      if Sends(t, 0x900) {
        OpenServed(t.job.bytes, FoundIn(s, Fd(t)), t.sys);
      } else if Sends(t, 0x902) {
        CloseServed(t.job.bytes, FoundIn(s, Fd(t)), t.sys);
      } else {
        ConnKept(s, t);
      }
    }
  }

  lemma ConnKept(s: Service, t: Turn)
    requires Possible(s, t) && !t.job.txn.isConnect && !Sends(t, 0x900) && !Sends(t, 0x902)
    ensures Done(s, t).next.states.conn == FoundIn(s, Fd(t)).states.conn
  {
    EffectIn(s, t);
  }

  lemma {:induction false} ListenIff(s: Service, turns: seq<Turn>, fd: int)
    requires Runs(s, turns) && Keeps(turns, fd)
    ensures FoundIn(End(s, turns), fd).states.conn == 1 <==>
            FoundIn(s, fd).states.conn == 1 && !Settled(s, turns, fd)
    decreases |turns|
  {
    if turns != [] {
      assert turns[0] in turns;
      ConnLeft(s, turns[0]);
      ListenIff(Next(s, turns[0]), turns[1..], fd);
    }
  }

  // On one record, from when it is unused: a CONNECT_OPEN (0x900) succeeds exactly when its version is at most 3 and no
  // open has succeeded and no close (0x902) been handled before; so at most once, and never after a close.
  lemma OpensIff(s: Service, turns: seq<Turn>, t: Turn)
    requires FoundIn(s, Fd(t)).states == States(1, 0, 0) && Runs(s, turns) && Keeps(turns, Fd(t))
    requires Possible(End(s, turns), t) && Sends(t, 0x900)
    ensures HasType(Struct(OPEN), t.sys.unset)
    ensures ErrorRead(End(s, turns), t) == 0 <==>
            ArgIn(OPEN, t.job.bytes, t.sys.unset, 0).n <= 3 && !Settled(s, turns, Fd(t))
  {
    ListenIff(s, turns, Fd(t));
    EffectIn(End(s, turns), t);
    OpenServed(t.job.bytes, FoundIn(End(s, turns), Fd(t)), t.sys);
  }

  // ---------------------------------------------------------------------------------------------- the data state

  predicate NoneOn(turns: seq<Turn>, fd: int) { forall t :: t in turns ==> Fd(t) != fd }

  // Turns on other descriptors leave the states found on one.
  lemma {:induction false} OthersStay(s: Service, turns: seq<Turn>, fd: int)
    requires Runs(s, turns) && NoneOn(turns, fd)
    ensures FoundIn(End(s, turns), fd).states == FoundIn(s, fd).states
    decreases |turns|
  {
    if turns != [] {
      assert turns[0] in turns;
      OthersStay(Next(s, turns[0]), turns[1..], fd);
    }
  }

  // A start, whatever its client reads, leaves HALTED.
  lemma StartHalts(s: Service, t: Turn)
    requires Possible(s, t) && (Sends(t, 0x401) || Sends(t, 0x402))
    ensures Done(s, t).next.states.data == 2
  {
    RequestLeft(s, t);
    EventOfNumber(s, t);
  }

  // After a START_BACKUP (0x401) or START_RECOVER (0x402), the next request on the same record: a DATA_STOP (0x407)
  // succeeds, leaves IDLE and clears the environment, a DATA_ABORT (0x403) is refused and leaves HALTED.
  lemma AfterStart(s: Service, start: Turn, turns: seq<Turn>, t: Turn)
    requires Possible(s, start) && (Sends(start, 0x401) || Sends(start, 0x402)) && start.kept
    requires Runs(Next(s, start), turns) && NoneOn(turns, Fd(start)) && Fd(t) == Fd(start)
    requires Possible(End(Next(s, start), turns), t)
    ensures var s' := End(Next(s, start), turns);
            && (Sends(t, 0x407) ==>
                  ErrorRead(s', t) == 0 && Done(s', t).next.states.data == 0 && Done(s', t).next.env == [])
            && (Sends(t, 0x403) ==>
                  ErrorRead(s', t) == 19 && Done(s', t).next.states.data == 2 && Done(s', t).next.env == s'.env)
  {
    var s' := End(Next(s, start), turns);
    StartHalts(s, start);
    OthersStay(Next(s, start), turns, Fd(t));
    if Sends(t, 0x407) {
      EffectIn(s', t);
      StopServed(t.job.bytes, FoundIn(s', Fd(t)), t.sys);
    } else if Sends(t, 0x403) {
      EffectIn(s', t);
      AbortServed(t.job.bytes, FoundIn(s', Fd(t)), t.sys);
    }
  }

  // On an unused record a LISTEN (0x409) for a local address leaves LISTEN, and the next request on it can neither
  // connect (0x40A) nor start (0x401, 0x402) with success.
  lemma AfterListen(s: Service, listen: Turn, turns: seq<Turn>, t: Turn)
    requires Possible(s, listen) && Sends(listen, 0x409) && FoundIn(s, Fd(listen)).states.data == 0
    requires HasType(Struct(LISTEN), listen.sys.unset) && listen.kept
    requires ArgIn(LISTEN, listen.job.bytes, listen.sys.unset, 0).n == 0
    requires Runs(Next(s, listen), turns) && NoneOn(turns, Fd(listen)) && Fd(t) == Fd(listen)
    requires Possible(End(Next(s, listen), turns), t)
    ensures ErrorRead(s, listen) == 0 && Done(s, listen).next.states.data == 3
    ensures Sends(t, 0x40A) || Sends(t, 0x401) || Sends(t, 0x402) ==> ErrorRead(End(Next(s, listen), turns), t) == 19
  {
    EffectIn(s, listen);
    ListenServed(listen.job.bytes, FoundIn(s, Fd(listen)), listen.sys);
    OthersStay(Next(s, listen), turns, Fd(t));
    if Sends(t, 0x40A) {
      EffectIn(End(Next(s, listen), turns), t);
      ConnectServed(t.job.bytes, FoundIn(End(Next(s, listen), turns), Fd(t)), t.sys);
    } else if Sends(t, 0x401) || Sends(t, 0x402) {
      StartAnswered(End(Next(s, listen), turns), t);
    }
  }

  lemma RecoverKnown(s: Service, t: Turn)
    requires Possible(s, t) && Sends(t, 0x402)
    ensures HasType(Struct(RECOVER), t.sys.unset)
    ensures exists a :: AsksFor(PvalsOf(ArgIn(RECOVER, t.job.bytes, t.sys.unset, 0)), a)
  {
    EffectIn(s, t);
    StartSchemas();
    StartArgs(t.job.bytes, FoundIn(s, Fd(t)), t.sys, 0x402, RECOVER, 0);
    var env := PvalsOf(ArgIn(RECOVER, t.job.bytes, t.sys.unset, 0));
    assert AsksFor(env, Asked(Setting(env, "FILESYSTEM").value, Setting(env, "USER").value));
  }

  // What the client of a start reads: a recover succeeds exactly on a connected record and when rsync does, a backup
  // when besides the volume was there or could be mounted.
  lemma StartAnswered(s: Service, t: Turn)
    requires Possible(s, t) && (Sends(t, 0x401) || Sends(t, 0x402))
    ensures ErrorRead(s, t) == if FoundIn(s, Fd(t)).states.data == 4 && t.sys.op.copies &&
                                  (Sends(t, 0x401) ==> Done(s, t).copy.Some?) then 0 else 19
  {
    if Sends(t, 0x401) { BackupAnswered(s, t); } else { RecoverAnswered(s, t); }
  }

  lemma BackupAnswered(s: Service, t: Turn)
    requires Possible(s, t) && Sends(t, 0x401)
    ensures ErrorRead(s, t) ==
            if FoundIn(s, Fd(t)).states.data == 4 && t.sys.op.copies && Done(s, t).copy.Some? then 0 else 19
  {
    EffectIn(s, t);
    PairsKnown(s, t);
    var a :| AsksFor(PairsIn(t), a);
    BackupServed(t.job.bytes, FoundIn(s, Fd(t)), t.sys, a);
  }

  lemma RecoverAnswered(s: Service, t: Turn)
    requires Possible(s, t) && Sends(t, 0x402)
    ensures ErrorRead(s, t) == if FoundIn(s, Fd(t)).states.data == 4 && t.sys.op.copies then 0 else 19
  {
    EffectIn(s, t);
    RecoverKnown(s, t);
    var a :| AsksFor(PvalsOf(ArgIn(RECOVER, t.job.bytes, t.sys.unset, 0)), a);
    RecoverServed(t.job.bytes, FoundIn(s, Fd(t)), t.sys, a);
  }

  // On an idle record a CONNECT (0x40A) to a local address leaves CONNECTED, and the next start on it succeeds exactly
  // when its commands do.
  lemma AfterConnect(s: Service, connect: Turn, turns: seq<Turn>, t: Turn)
    requires Possible(s, connect) && Sends(connect, 0x40A) && FoundIn(s, Fd(connect)).states.data == 0
    requires HasType(Struct(CONNECT), connect.sys.unset) && connect.kept
    requires ArgIn(CONNECT, connect.job.bytes, connect.sys.unset, 0).tag == 0
    requires Runs(Next(s, connect), turns) && NoneOn(turns, Fd(connect)) && Fd(t) == Fd(connect)
    requires Possible(End(Next(s, connect), turns), t)
    ensures ErrorRead(s, connect) == 0 && Done(s, connect).next.states.data == 4
    ensures var s' := End(Next(s, connect), turns);
            (Sends(t, 0x401) ==> (ErrorRead(s', t) == 0 <==> Done(s', t).copy.Some? && t.sys.op.copies)) &&
            (Sends(t, 0x402) ==> (ErrorRead(s', t) == 0 <==> t.sys.op.copies))
  {
    EffectIn(s, connect);
    ConnectServed(connect.job.bytes, FoundIn(s, Fd(connect)), connect.sys);
    OthersStay(Next(s, connect), turns, Fd(t));
    if Sends(t, 0x401) || Sends(t, 0x402) { StartAnswered(End(Next(s, connect), turns), t); }
  }
}
