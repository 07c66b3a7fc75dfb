/** The data service as a machine over requests of any sessions, in the order the worker handles them
    (`ndmp_data.c`, `ndmp_connect.c`).  States are the numbers that are stored: the handlers use ndmp_data_state of
    `ndmp.x`, the close handler writes the HALTED of enum ndmp_state, which is the CONNECTED of the other enum. */
module DataStates {
  // enum ndmp_data_state (ndmp.x)
  const IDLE := 0
  const ACTIVE := 1
  const HALTED := 2
  const LISTENING := 3
  const CONNECTED := 4

  // enum ndmp_state (ndmp_msg.h), as the connect handlers use it
  const CONN_LISTEN := 1
  const CONN_CONNECTED := 2
  const CONN_HALTED := 4

  // The states of a session record; those of a new record are LISTEN and twice IDLE of enum ndmp_state.
  datatype States = States(conn: int, data: int, mover: int)

  const UNUSED := States(CONN_LISTEN, IDLE, IDLE)

  // enum ndmp_error and enum ndmp_addr_type (ndmp.x)
  const NO_ERR := 0
  const NOT_SUPPORTED_ERR := 1
  const ILLEGAL_ARGS_ERR := 9
  const ILLEGAL_STATE_ERR := 19
  const ADDR_LOCAL := 0

  datatype Pval = Pval(name: string, value: string)

  // `works` says that the mount and rsync commands of a start succeed.
  datatype Request =
    | Listen(addrType: int) | Connect(addrType: int)
    | StartBackup(env: seq<Pval>, works: bool) | StartRecover(works: bool)
    | Abort | Stop | GetEnv | Close

  predicate Starts(req: Request) { req.StartBackup? || req.StartRecover? }

  function ErrorOf(state: int, req: Request): int {
    match req
    case Listen(a) => if state != IDLE then ILLEGAL_STATE_ERR else if a != ADDR_LOCAL then ILLEGAL_ARGS_ERR else NO_ERR
    case Connect(a) => if state != IDLE then ILLEGAL_STATE_ERR else if a != ADDR_LOCAL then ILLEGAL_ARGS_ERR else NO_ERR
    case StartBackup(_, works) => if state != CONNECTED || !works then ILLEGAL_STATE_ERR else NO_ERR
    case StartRecover(works) => if state != CONNECTED || !works then ILLEGAL_STATE_ERR else NO_ERR
    case Abort => if state == HALTED || state == IDLE then ILLEGAL_STATE_ERR else NO_ERR
    case Stop => if state != HALTED then ILLEGAL_STATE_ERR else NO_ERR
    case _ => NO_ERR
  }

  // A start ends in HALTED even when it is refused.
  function NextState(state: int, req: Request): int {
    match req
    case Listen(_) => if ErrorOf(state, req) == NO_ERR then LISTENING else state
    case Connect(_) => if ErrorOf(state, req) == NO_ERR then CONNECTED else state
    case StartBackup(_, _) => HALTED
    case StartRecover(_) => HALTED
    case Abort => if ErrorOf(state, req) == NO_ERR then HALTED else state
    case Stop => if ErrorOf(state, req) == NO_ERR then IDLE else state
    case GetEnv => state
    case Close => CONN_HALTED
  }

  // The environment is one for all sessions; any backup request replaces it, any successful stop clears it.
  function NextEnv(state: int, env: seq<Pval>, req: Request): seq<Pval> {
    match req
    case StartBackup(e, _) => e
    case Stop => if ErrorOf(state, req) == NO_ERR then [] else env
    case _ => env
  }

  // A session is known by its descriptor.  When its record is freed, the next request on the descriptor finds the
  // states of a new one.
  datatype Event = Event(session: int, req: Request) | Freed(session: int)
  datatype Data = Data(states: map<int, int>, env: seq<Pval>)

  const FIRST := Data(map[], [])

  function StateOf(d: Data, session: int): int { if session in d.states then d.states[session] else IDLE }

  function Step(d: Data, e: Event): Data {
    match e
    case Event(session, req) =>
      var state := StateOf(d, session);
      Data(d.states[session := NextState(state, req)], NextEnv(state, d.env, req))
    case Freed(session) => Data(d.states - {session}, d.env)
  }

  // The service after the first n events.
  function At(es: seq<Event>, n: nat): Data
    requires n <= |es|
  {
    if n == 0 then FIRST else Step(At(es, n - 1), es[n - 1])
  }

  function StateAt(es: seq<Event>, session: int, n: nat): int
    requires n <= |es|
  {
    StateOf(At(es, n), session)
  }

  // Event k is a request of the session that succeeds.
  predicate Succeeds(es: seq<Event>, session: int, k: nat)
    requires k < |es|
  {
    es[k].Event? && es[k].session == session && ErrorOf(StateAt(es, session, k), es[k].req) == NO_ERR
  }

  predicate StartsAt(es: seq<Event>, session: int, k: nat)
    requires k < |es|
  {
    Succeeds(es, session, k) && Starts(es[k].req)
  }

  // ------------------------------------------------------------------------------------- states of one session

  // Between a time when a session is not in state x and a later one when it is, some event brings it there: a request,
  // or the end of its record.
  lemma {:induction false} Enters(es: seq<Event>, session: int, a: nat, b: nat, x: int) returns (m: nat)
    requires a <= b <= |es| && StateAt(es, session, a) != x && StateAt(es, session, b) == x
    ensures a <= m < b && es[m].session == session && StateAt(es, session, m) != x
    ensures if es[m].Freed? then x == IDLE else NextState(StateAt(es, session, m), es[m].req) == x
    decreases b
  {
    if StateAt(es, session, b - 1) == x {
      m := Enters(es, session, a, b - 1, x);
    } else {
      m := b - 1;
    }
  }

  ghost predicate ClosesBetween(es: seq<Event>, session: int, a: nat, b: nat)
    requires b <= |es|
  {
    exists k :: a <= k < b && es[k] == Event(session, Close)
  }

  ghost predicate FreedBetween(es: seq<Event>, session: int, a: nat, b: nat)
    requires b <= |es|
  {
    exists k :: a <= k < b && es[k] == Freed(session)
  }

  // A session that reaches CONNECTED without a close was IDLE and connected.
  lemma ConnectedBy(es: seq<Event>, session: int, a: nat, b: nat) returns (m: nat)
    requires a <= b <= |es| && !ClosesBetween(es, session, a, b)
    requires StateAt(es, session, a) != CONNECTED && StateAt(es, session, b) == CONNECTED
    ensures a <= m < b && Succeeds(es, session, m) && es[m].req.Connect? && StateAt(es, session, m) == IDLE
  {
    m := Enters(es, session, a, b, CONNECTED);
    assert es[m] != Event(session, Close);
  }

  // A session that reaches IDLE was HALTED and stopped, or its record was freed.
  lemma IdleBy(es: seq<Event>, session: int, a: nat, b: nat) returns (m: nat)
    requires a <= b <= |es| && StateAt(es, session, a) != IDLE && StateAt(es, session, b) == IDLE
    ensures a <= m < b
    ensures es[m] == Freed(session) ||
            (Succeeds(es, session, m) && es[m] == Event(session, Stop) && StateAt(es, session, m) == HALTED)
  {
    m := Enters(es, session, a, b, IDLE);
  }

  // Between two successful starts of a session that does not close there is a successful stop, or the end of the
  // record, and after it a successful connect.
  lemma StopAndConnectBetweenStarts(es: seq<Event>, session: int, i: nat, j: nat)
    requires i < j < |es| && StartsAt(es, session, i) && StartsAt(es, session, j)
    requires !ClosesBetween(es, session, i + 1, j)
    ensures exists k, l :: i < k < l < j &&
              (es[k] == Freed(session) || (es[k] == Event(session, Stop) && Succeeds(es, session, k))) &&
              Succeeds(es, session, l) && es[l].req.Connect?
  {
    var l := ConnectedBy(es, session, i + 1, j);
    assert !ClosesBetween(es, session, i + 1, l);
    var k := IdleBy(es, session, i + 1, l);
  }

  // After a successful LISTEN a session that does not close, on the same record, starts nothing before it was HALTED
  // and then IDLE.
  lemma ListenNeverStarts(es: seq<Event>, session: int, i: nat, j: nat)
    requires i < j < |es| && Succeeds(es, session, i) && es[i].req.Listen? && StartsAt(es, session, j)
    requires !ClosesBetween(es, session, i, j) && !FreedBetween(es, session, i, j)
    ensures exists k, l :: i < k < l < j && StateAt(es, session, k) == HALTED && StateAt(es, session, l) == IDLE
  {
    var l := ConnectedBy(es, session, i + 1, j);
    var k := IdleBy(es, session, i + 1, l);
  }

  // ACTIVE is never seen between requests, whatever is closed.
  lemma {:induction false} NeverActive(es: seq<Event>, session: int, n: nat)
    requires n <= |es|
    ensures StateAt(es, session, n) in {IDLE, HALTED, LISTENING, CONNECTED}
  {
    if n > 0 { NeverActive(es, session, n - 1); }
  }

  // Something is so exactly when an event made it so and none since undid it.
  lemma {:induction false} SinceIff(so: nat -> bool, makes: nat -> bool, undoes: nat -> bool, n: nat)
    requires !so(0) && forall k: nat :: k < n ==> (so(k + 1) <==> makes(k) || (so(k) && !undoes(k)))
    ensures so(n) <==> exists k: nat :: Since(makes, undoes, k, n)
  {
    if n > 0 {
      SinceIff(so, makes, undoes, n - 1);
      if so(n) {
        if makes(n - 1) {
          assert Since(makes, undoes, n - 1, n);
        } else {
          var k: nat :| Since(makes, undoes, k, n - 1);
          assert Since(makes, undoes, k, n);
        }
      } else if k: nat :| Since(makes, undoes, k, n) {
        assert k < n - 1 ==> Since(makes, undoes, k, n - 1);
        assert false;
      }
    }
  }

  ghost predicate Since(makes: nat -> bool, undoes: nat -> bool, k: nat, n: nat) {
    k < n && makes(k) && forall i: nat :: k < i < n ==> !undoes(i)
  }

  // What makes a start possible, and what undoes it.
  predicate Arms(es: seq<Event>, session: int, k: nat)
    requires k < |es|
  {
    es[k] == Event(session, Close) || (Succeeds(es, session, k) && es[k].req.Connect?)
  }

  predicate Disarms(e: Event, session: int) {
    e.session == session && (e.Freed? || Starts(e.req) || e.req.Abort?)
  }

  ghost predicate ArmedBy(es: seq<Event>, session: int, k: nat, n: nat)
    requires k < n <= |es|
  {
    Arms(es, session, k) && forall i :: k < i < n ==> !Disarms(es[i], session)
  }

  // Exactly when a session may start: it connected or closed, and has neither started nor aborted nor lost its record
  // since.  So the stop and connect above are assured exactly because no close is in between; a close alone lets the
  // next start through.
  lemma StartableIff(es: seq<Event>, session: int, n: nat)
    requires n <= |es|
    ensures StateAt(es, session, n) == CONNECTED <==> exists k :: 0 <= k < n && ArmedBy(es, session, k, n)
  {
    var makes, undoes := (k: nat) => k < |es| && Arms(es, session, k), (k: nat) => k < |es| && Disarms(es[k], session);
    SinceIff((k: nat) => k <= |es| && StateAt(es, session, k) == CONNECTED, makes, undoes, n);
    if k: nat :| Since(makes, undoes, k, n) {
      forall i | k < i < n ensures !Disarms(es[i], session) { assert !undoes(i); }
      assert ArmedBy(es, session, k, n);
    }
    if k :| 0 <= k < n && ArmedBy(es, session, k, n) { assert Since(makes, undoes, k, n); }
  }

  // What ends a LISTEN.
  predicate EndsListen(e: Event, session: int) {
    e.session == session && (e.Freed? || Starts(e.req) || e.req.Abort? || e.req.Close?)
  }

  ghost predicate ListensBy(es: seq<Event>, session: int, k: nat, n: nat)
    requires k < n <= |es|
  {
    Succeeds(es, session, k) && es[k].req.Listen? && forall i :: k < i < n ==> !EndsListen(es[i], session)
  }

  // Exactly when a session is in LISTEN: it made a successful LISTEN and has neither started nor aborted nor closed nor
  // lost its record since.
  lemma ListeningIff(es: seq<Event>, session: int, n: nat)
    requires n <= |es|
    ensures StateAt(es, session, n) == LISTENING <==> exists k :: 0 <= k < n && ListensBy(es, session, k, n)
  {
    var makes := (k: nat) => k < |es| && Succeeds(es, session, k) && es[k].req.Listen?;
    var undoes := (k: nat) => k < |es| && EndsListen(es[k], session);
    SinceIff((k: nat) => k <= |es| && StateAt(es, session, k) == LISTENING, makes, undoes, n);
    if k: nat :| Since(makes, undoes, k, n) {
      forall i | k < i < n ensures !EndsListen(es[i], session) { assert !undoes(i); }
      assert ListensBy(es, session, k, n);
    }
    if k :| 0 <= k < n && ListensBy(es, session, k, n) { assert Since(makes, undoes, k, n); }
  }

  // What halts a session, and what ends that.
  predicate Halts(es: seq<Event>, session: int, k: nat)
    requires k < |es|
  {
    es[k].Event? && es[k].session == session && (Starts(es[k].req) || (es[k].req.Abort? && Succeeds(es, session, k)))
  }

  predicate EndsHalt(e: Event, session: int) { e.session == session && (e.Freed? || e.req.Stop? || e.req.Close?) }

  ghost predicate HaltedBy(es: seq<Event>, session: int, k: nat, n: nat)
    requires k < n <= |es|
  {
    Halts(es, session, k) && forall i :: k < i < n ==> !EndsHalt(es[i], session)
  }

  // Exactly when a session is HALTED: it started, with or without success, or made a successful abort, and has neither
  // stopped nor closed nor lost its record since.  In all cases but these three it is IDLE (NeverActive).
  lemma HaltedIff(es: seq<Event>, session: int, n: nat)
    requires n <= |es|
    ensures StateAt(es, session, n) == HALTED <==> exists k :: 0 <= k < n && HaltedBy(es, session, k, n)
  {
    var makes := (k: nat) => k < |es| && Halts(es, session, k);
    var undoes := (k: nat) => k < |es| && EndsHalt(es[k], session);
    SinceIff((k: nat) => k <= |es| && StateAt(es, session, k) == HALTED, makes, undoes, n);
    if k: nat :| Since(makes, undoes, k, n) {
      forall i | k < i < n ensures !EndsHalt(es[i], session) { assert !undoes(i); }
      assert HaltedBy(es, session, k, n);
    }
    if k :| 0 <= k < n && HaltedBy(es, session, k, n) { assert Since(makes, undoes, k, n); }
  }

  // A close lets a start through that no connect prepared.
  lemma CloseThenStart(session: int)
    ensures var es := [Event(session, Close), Event(session, StartRecover(true))];
            StartsAt(es, session, 1) && forall e :: e in es ==> e.Event? && !e.req.Connect?
  {
    var es := [Event(session, Close), Event(session, StartRecover(true))];
    assert At(es, 1) == Step(At(es, 0), es[0]);
  }

  // -------------------------------------------------------------------------------------------- the environment

  ghost predicate StopsBetween(es: seq<Event>, a: nat, b: nat)
    requires b <= |es|
  {
    exists k :: a <= k < b && es[k].Event? && es[k].req.Stop? && Succeeds(es, es[k].session, k)
  }

  // GET_ENV returns the environment of the latest START_BACKUP on any session, refused or not, unless a successful
  // DATA_STOP on any session came after it.
  lemma {:induction false} EnvOfLatestBackup(es: seq<Event>, i: nat, n: nat)
    requires i < n <= |es| && es[i].Event? && es[i].req.StartBackup?
    requires forall k :: i < k < n ==> es[k].Event? ==> !es[k].req.StartBackup?
    ensures At(es, n).env == if StopsBetween(es, i + 1, n) then [] else es[i].req.env
  {
    if n > i + 1 {
      EnvOfLatestBackup(es, i, n - 1);
      if StopsBetween(es, i + 1, n - 1) { assert StopsBetween(es, i + 1, n); }
      if es[n - 1].Event? && es[n - 1].req.Stop? && Succeeds(es, es[n - 1].session, n - 1) {
        assert StopsBetween(es, i + 1, n);
      }
    }
  }

  lemma {:induction false} EnvWithoutBackup(es: seq<Event>, n: nat)
    requires n <= |es| && forall k :: 0 <= k < n ==> es[k].Event? ==> !es[k].req.StartBackup?
    ensures At(es, n).env == []
  {
    if n > 0 { EnvWithoutBackup(es, n - 1); }
  }
}
