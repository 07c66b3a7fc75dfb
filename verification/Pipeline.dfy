/** The request pipeline as a machine of atomic steps: the main thread (`comm.c`) accepts, reads and hangs up, the one
    worker (`worker.c`, `ndmp_msg.c`) takes, registers, handles, cleans up and hands over or frees, and the responder
    sends or drops.  Any interleaving of the steps is a run.  `conn` tells connections apart that share a descriptor;
    the program never sees it. */
module Pipeline {
  import opened Common
  import opened LinkedQueue

  datatype Peer = Peer(fd: int, conn: nat)

  datatype Kind = Notify | Reply
  datatype Message = Silent | Message(kind: Kind, sequence: int)

  // A client_txn; `id` is its allocation, `isConnect` the pseudo request made at accept time.
  datatype Txn = Txn(id: nat, peer: Peer, isConnect: bool, reply: Message)

  // What the pipeline reads of an ndmp_session_info; the table of them is keyed by descriptor.
  datatype Info = Info(jobs: seq<nat>, terminated: bool)

  // Marking holds the record that terminate_session found: the worker may have freed it since.
  datatype Main =
    | Waiting | Accepted(peer: Peer) | Closing(fd: int, id: nat) | Marking(fd: int, id: nat, freed: bool)
  datatype Worker =
    | Idle | Taken(txn: Txn) | Registered(txn: Txn) | Handled(txn: Txn) | Cleaned(txn: Txn, gone: bool)

  datatype Sent = Sent(to: Peer, txn: Txn)

  datatype State = State(
    nextId: nat, nextConn: nat, nextSequence: int,
    sessions: seq<Peer>, requests: seq<Txn>, replies: seq<Txn>, table: map<int, Info>,
    main: Main, worker: Worker, responder: Option<Txn>,
    // history: connections that left the active sessions, descriptors ever accepted, messages sent, and
    // transactions freed by the responder, the worker and the main thread
    left: set<nat>, seen: set<int>, sent: seq<Sent>, finished: seq<Txn>, dropped: seq<nat>, closed: seq<nat>)

  const START := State(0, 0, 1, [], [], [], map[], Waiting, Idle, None, {}, {}, [], [], [], [])

  // ---------------------------------------------------------------------------- the table of session records

  const FRESH := Info([], false)

  // get_session_info: creates the record when there is none.
  function Ensure(table: map<int, Info>, fd: int): map<int, Info> {
    if fd in table then table else table[fd := FRESH]
  }

  function IsJob(id: nat): nat -> bool { (job: nat) => job == id }

  // add_job_to_session, terminate_session (which finds the record and then sets its flag), cleanup_session.
  function AddJob(table: map<int, Info>, fd: int, id: nat): map<int, Info> {
    var t := Ensure(table, fd);
    t[fd := t[fd].(jobs := t[fd].jobs + [id])]
  }

  function Mark(table: map<int, Info>, fd: int): map<int, Info> {
    if fd in table then table[fd := table[fd].(terminated := true)] else table
  }

  function Terminate(table: map<int, Info>, fd: int): map<int, Info> { Mark(Ensure(table, fd), fd) }

  function Cleanup(table: map<int, Info>, fd: int, id: nat): (map<int, Info>, bool) {
    var t := Ensure(table, fd);
    var info := t[fd].(jobs := RemoveFirst(t[fd].jobs, IsJob(id)));
    var t' := t[fd := info];
    (if info.terminated && info.jobs == [] then t' - {fd} else t', info.terminated)
  }

  // The main thread after a cleanup on fd left the table: it may now hold a freed record.
  function Holding(main: Main, fd: int, table: map<int, Info>): Main {
    if main.Marking? && main.fd == fd && fd !in table then main.(freed := true) else main
  }

  // ------------------------------------------------------------------------------------------------- steps

  datatype Step =
    | Accept(fd: int)                  // main: accept a connection, add it to the active sessions
    | AcceptJob                        // main: enqueue the pseudo request
    | Receive(fd: int)                 // main: data read on an active session
    | Hangup(fd: int)                  // main: nothing read; close, leave the active sessions
    | FindClosing                      // main: terminate_session looks the record up
    | MarkClosed                       // main: terminate_session sets the flag of the record it found, unless that
                                       // was freed meanwhile; the transaction is freed
    | TakeJob | Register                  // worker: dequeue, add_job_to_session
    | Handle(answer: Option<Kind>)     // worker: the handler, and what it puts in the reply
    | CleanUp | Deliver                // worker: cleanup_session, then free or enqueue the reply
    | Fetch | Send                     // responder: dequeue, then check membership, send or not, free

  function ByFd(fd: int): Peer -> bool { (p: Peer) => p.fd == fd }

  predicate Active(s: State, fd: int) { FirstMatch(s.sessions, ByFd(fd)).Some? }

  // What the threads' own control flow and the operating system allow next: accept never yields an open descriptor.
  predicate Enabled(s: State, step: Step) {
    match step
    case Accept(fd) => s.main.Waiting? && !Active(s, fd)
    case AcceptJob => s.main.Accepted?
    case Receive(fd) => s.main.Waiting? && Active(s, fd)
    case Hangup(fd) => s.main.Waiting? && Active(s, fd)
    case FindClosing => s.main.Closing?
    case MarkClosed => s.main.Marking?
    case TakeJob => s.worker.Idle? && s.requests != []
    case Register => s.worker.Taken?
    case Handle(answer) => s.worker.Registered? && (s.worker.txn.isConnect ==> answer == Some(Notify))
    case CleanUp => s.worker.Handled?
    case Deliver => s.worker.Cleaned?
    case Fetch => s.responder.None? && s.replies != []
    case Send => s.responder.Some?
  }

  predicate Arrives(step: Step) { step.AcceptJob? || step.Receive? }

  // The transaction that an arrival allocates, and the one a handler leaves.
  function Arrived(s: State, step: Step): Txn
    requires Enabled(s, step) && Arrives(step)
  {
    if step.AcceptJob? then Txn(s.nextId, s.main.peer, true, Silent)
    else Txn(s.nextId, FirstMatch(s.sessions, ByFd(step.fd)).value, false, Silent)
  }

  function Answered(s: State, step: Step): Txn
    requires Enabled(s, step) && step.Handle?
  {
    if step.answer.None? then s.worker.txn else s.worker.txn.(reply := Message(step.answer.value, s.nextSequence))
  }

  // The worker frees its transaction instead of handing it over.
  predicate Drops(s: State, step: Step) {
    step.Deliver? && s.worker.Cleaned? && (s.worker.gone || s.worker.txn.reply.Silent?)
  }

  function Apply(s: State, step: Step): State
    requires Enabled(s, step)
  {
    match step
    case Accept(fd) =>
      var peer := Peer(fd, s.nextConn);
      s.(sessions := s.sessions + [peer], nextConn := s.nextConn + 1, main := Accepted(peer), seen := s.seen + {fd})
    case AcceptJob => s.(requests := s.requests + [Arrived(s, step)], nextId := s.nextId + 1, main := Waiting)
    case Receive(_) => s.(requests := s.requests + [Arrived(s, step)], nextId := s.nextId + 1)
    case Hangup(fd) =>
      s.(left := s.left + {FirstMatch(s.sessions, ByFd(fd)).value.conn},
         sessions := RemoveFirst(s.sessions, ByFd(fd)), main := Closing(fd, s.nextId), nextId := s.nextId + 1)
    case FindClosing =>
      s.(table := Ensure(s.table, s.main.fd), main := Marking(s.main.fd, s.main.id, false))
    case MarkClosed =>
      s.(table := if s.main.freed then s.table else Mark(s.table, s.main.fd),
         closed := s.closed + [s.main.id], main := Waiting)
    case TakeJob => s.(worker := Taken(s.requests[0]), requests := s.requests[1..])
    case Register =>
      var txn := s.worker.txn;
      s.(table := AddJob(s.table, txn.peer.fd, txn.id), worker := Registered(txn))
    case Handle(answer) =>
      s.(worker := Handled(Answered(s, step)), nextSequence := s.nextSequence + if answer.Some? then 1 else 0)
    case CleanUp =>
      var txn := s.worker.txn;
      var (table, gone) := Cleanup(s.table, txn.peer.fd, txn.id);
      s.(table := table, worker := Cleaned(txn, gone), main := Holding(s.main, txn.peer.fd, table))
    case Deliver =>
      if Drops(s, step)
      then s.(worker := Idle, dropped := s.dropped + [s.worker.txn.id])
      else s.(worker := Idle, replies := s.replies + [s.worker.txn])
    case Fetch => s.(responder := Some(s.replies[0]), replies := s.replies[1..])
    case Send =>
      var txn := s.responder.value;
      var peer := FirstMatch(s.sessions, ByFd(txn.peer.fd));
      s.(responder := None, finished := s.finished + [txn],
         sent := if peer.Some? then s.sent + [Sent(peer.value, txn)] else s.sent)
  }

  // ----------------------------------------------------------------------------------------------------- runs

  predicate Legal(s: State, run: seq<Step>)
    decreases |run|
  {
    run == [] || (Enabled(s, run[0]) && Legal(Apply(s, run[0]), run[1..]))
  }

  function Exec(s: State, run: seq<Step>): State
    requires Legal(s, run)
    decreases |run|
  {
    if run == [] then s else Exec(Apply(s, run[0]), run[1..])
  }

  lemma {:induction false} Concat(s: State, a: seq<Step>, b: seq<Step>)
    requires Legal(s, a) && Legal(Exec(s, a), b)
    ensures Legal(s, a + b) && Exec(s, a + b) == Exec(Exec(s, a), b)
    decreases |a|
  {
    if a == [] {
      assert a + b == b;
    } else {
      assert (a + b)[1..] == a[1..] + b;
      Concat(Apply(s, a[0]), a[1..], b);
    }
  }

  lemma Cons(s: State, step: Step, rest: seq<Step>)
    requires Enabled(s, step) && Legal(Apply(s, step), rest)
    ensures Legal(s, [step] + rest) && Exec(s, [step] + rest) == Exec(Apply(s, step), rest)
  {
    assert ([step] + rest)[1..] == rest;
  }
}
