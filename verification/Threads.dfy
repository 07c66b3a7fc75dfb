/** One turn of the loops in `worker.c` from request bytes to reply bytes: the session records and the data service are
    on the heap, the three queues are kept by their contents. */
module Threads {
  import opened Common
  import opened LinkedQueue
  import opened Pipeline
  import opened Sessions
  import opened Worker
  import opened Xdr
  import opened Messages
  import opened Replies
  import opened NdmpServer
  import opened PipelineBytes
  import opened DataService
  import DataStates

  // A transaction with its bytes: those of the request, then those of the framed reply.
  datatype Job = Job(txn: Txn, bytes: seq<byte>)

  function Txns(jobs: seq<Job>): (ts: seq<Txn>)
    ensures |ts| == |jobs| && forall i :: 0 <= i < |ts| ==> ts[i] == jobs[i].txn
  {
    seq(|jobs|, i requires 0 <= i < |jobs| => jobs[i].txn)
  }

  lemma TxnsAppend(jobs: seq<Job>, job: Job)
    ensures Txns(jobs + [job]) == Txns(jobs) + [job.txn]
  {
  }

  // What a handler needs: little for the pseudo request of an accept.
  ghost predicate Servable(job: Job, b: Before, sys: System) {
    && job.txn.reply.Silent? && ULong.Holds(b.sequence) && ULong.Holds(sys.time) && EnvRoom(b.env)
    && (!job.txn.isConnect ==>
          4 <= |job.bytes| <= MAX_MESSAGE_SIZE && Serves(job.bytes, b.states.conn, sys))
  }

  predicate Decodes(job: Job) { job.txn.isConnect || (|job.bytes| >= 4 && DecodeHeader(job.bytes[4..]).Got?) }

  // The pseudo request of an accept has 0xf001.
  function MessageOf(job: Job): int
    requires Decodes(job)
  {
    if job.txn.isConnect then 0xf001 else HeaderOf(job.bytes).message
  }

  // What becomes of a request.
  function AnswerTo(job: Job): Option<Kind>
    requires Decodes(job)
  {
    AnswerOf(MessageOf(job))
  }

  // The transaction that leaves the handler, when the counter stood at sequence.
  function AnsweredTxn(txn: Txn, answer: Option<Kind>, sequence: int): Txn {
    match answer case None => txn case Some(kind) => txn.(reply := Message(kind, sequence))
  }

  // What the handler of a transaction leaves: the transaction, what a client reads from its bytes, what was copied, and
  // what the next handler on the session would find.
  datatype After = After(txn: Txn, received: Option<Received>, copy: Option<Copy>, next: Before)

  ghost function Expected(job: Job, b: Before, sys: System): Option<After> {
    if !Servable(job, b, sys) then None
    else Some(if job.txn.isConnect then AfterConnect(job, b, sys.time) else AfterRequest(job, b, sys))
  }

  function AfterConnect(job: Job, b: Before, time: int): After {
    After(job.txn.(reply := Message(Notify, b.sequence)),
          Some(Received(GreetingHeader(b.sequence, time), Some(GREETING))), None, b.(sequence := b.sequence + 1))
  }

  ghost function AfterRequest(job: Job, b: Before, sys: System): After
    requires Servable(job, b, sys) && !job.txn.isConnect
  {
    After(AnsweredTxn(job.txn, AnswerTo(job), b.sequence), Reception(job.bytes, b, sys),
          RequestCopies(job.bytes, b, sys), RequestLeaves(job.bytes, b, sys))
  }

  // What to expect of one transaction, for the methods that need not look into it.
  ghost predicate Specifies(spec: Before -> Option<After>, job: Job, sys: System) {
    forall b {:trigger Expected(job, b, sys)} :: spec(b) == Expected(job, b, sys)
  }

  ghost function ExpectedOf(job: Job, sys: System): (spec: Before -> Option<After>)
    ensures Specifies(spec, job, sys)
  {
    b => Expected(job, b, sys)
  }

  // Whatever is found, the transaction gets this answer.
  ghost predicate Foretells(spec: Before -> Option<After>, txn: Txn, answer: Option<Kind>) {
    forall b :: spec(b).Some? ==>
      spec(b).value.txn == AnsweredTxn(txn, answer, b.sequence) &&
      spec(b).value.next.sequence == b.sequence + if answer.Some? then 1 else 0
  }

  lemma AnswerForetold(spec: Before -> Option<After>, job: Job, b: Before, sys: System)
    requires Specifies(spec, job, sys) && spec(b).Some?
    ensures Decodes(job) && Foretells(spec, job.txn, AnswerTo(job))
  {
    assert spec(b) == Expected(job, b, sys);
    forall b' | spec(b').Some?
      ensures spec(b').value.txn == AnsweredTxn(job.txn, AnswerTo(job), b'.sequence)
      ensures spec(b').value.next.sequence == b'.sequence + if AnswerTo(job).Some? then 1 else 0
    {
      assert spec(b') == Expected(job, b', sys);
    }
  }

  // The environment that is left has room in a reply again.
  lemma RoomKept(job: Job, b: Before, sys: System)
    requires Expected(job, b, sys).Some?
    ensures EnvRoom(Expected(job, b, sys).value.next.env)
  {
    if !job.txn.isConnect { NextEnvRoom(job.bytes, b, sys); }
  }

  // What is left when the handler is done with a transaction.
  function Left(done: Job, copy: Option<Copy>, b: Before): After {
    After(done.txn, if done.txn.reply.Silent? then None else ClientDecode(done.bytes), copy, b)
  }

  // The states of the records that exist, by descriptor, and what the server has.
  datatype Service = Service(states: map<int, DataStates.States>, env: seq<DataStates.Pval>, volumes: string,
                             sequence: int)

  function FoundIn(s: Service, fd: int): Before {
    Before(if fd in s.states then s.states[fd] else DataStates.UNUSED, s.env, s.volumes, s.sequence)
  }

  // The service after a handler on fd left this, if the cleanup keeps its record or not.
  function ServiceAfter(s: Service, fd: int, left: Before, kept: bool): Service {
    Service(if kept then s.states[fd := left.states] else s.states - {fd}, left.env, left.volumes, left.sequence)
  }

  // The latest counts.
  lemma AfterBoth(s: Service, fd: int, left: Before, last: Before, kept: bool)
    ensures ServiceAfter(ServiceAfter(s, fd, left, true), fd, last, kept) == ServiceAfter(s, fd, last, kept)
    ensures FoundIn(ServiceAfter(s, fd, left, true), fd) == left
  {
    assert s.states[fd := left.states] - {fd} == s.states - {fd};
    assert s.states[fd := left.states][fd := last.states] == s.states[fd := last.states];
  }

  datatype View = View(
    sessions: seq<Peer>, requests: seq<Txn>, replies: seq<Txn>, table: map<int, Info>, sequence: int)

  function ViewOf(s: State): View { View(s.sessions, s.requests, s.replies, s.table, s.nextSequence) }

  lemma AfterJobParts(s: State, answer: Option<Kind>, table: map<int, Info>, gone: bool, txn: Txn)
    requires s.worker.Idle? && s.requests != []
    requires var job := s.requests[0];
             (table, gone) == Cleanup(AddJob(s.table, job.peer.fd, job.id), job.peer.fd, job.id) &&
             txn == AnsweredTxn(job, answer, s.nextSequence)
    ensures var s' := AfterJob(s, answer);
            ViewOf(s') == View(s.sessions, s.requests[1..],
                               s.replies + (if gone || txn.reply.Silent? then [] else [txn]), table,
                               s.nextSequence + if answer.Some? then 1 else 0)
  {
  }

  class Threads {
    const table: SessionTable
    const server: NdmpServer
    var sessions: seq<Peer>
    var requestJobs: seq<Job>
    var replyJobs: seq<Job>

    ghost predicate Tied()
      reads this, server, table, table.Repr
    {
      && table.Valid() && this !in table.Repr && server !in table.Repr && server.data !in table.Repr
      && table !in table.Repr
    }

    // What the threads share, if it is well formed.
    ghost function Now(): Option<View>
      reads this, server, table, table.Repr
    {
      if Tied() then Some(View(sessions, Txns(requestJobs), Txns(replyJobs), table.table, server.sequence)) else None
    }

    // The shared state of s is what the threads find.
    ghost predicate Shows(s: State)
      reads this, server, table, table.Repr
    {
      Now() == Some(ViewOf(s))
    }

    // What a handler would find on a session.
    ghost function Found(fd: int): Before
      reads table, table.byId.Values, server, server.data
    {
      Before(table.StatesOf(fd), server.data.env, server.data.volumes, server.sequence)
    }

    // What all handlers would find.
    ghost function Held(): Service
      reads table, table.byId.Values, server, server.data
    {
      Service(map fd | fd in table.byId :: table.byId[fd].States(), server.data.env, server.data.volumes,
              server.sequence)
    }

    lemma FoundHeld(fd: int)
      ensures Found(fd) == FoundIn(Held(), fd)
    {
    }

    // What is held when only fd has changed.
    lemma HeldAfter(s: Service, fd: int, left: Before)
      requires Found(fd) == if fd in table.byId then left else left.(states := DataStates.UNUSED)
      requires forall i :: i != fd ==> (i in table.byId <==> i in s.states)
      requires forall i :: i != fd ==> table.StatesOf(i) == FoundIn(s, i).states
      ensures Held() == ServiceAfter(s, fd, left, fd in table.byId)
    {
      var after := ServiceAfter(s, fd, left, fd in table.byId).states;
      forall i ensures i in Held().states <==> i in after {
        assert i != fd ==> (i in table.byId <==> i in s.states);
      }
      forall i | i in after ensures Held().states[i] == after[i] {
        if i != fd { assert table.StatesOf(i) == FoundIn(s, i).states; }
      }
      assert Held().states == after;
    }

    constructor (volumes: string)
      ensures Shows(START) && fresh(table) && fresh(table.Repr) && fresh(server) && fresh(server.data)
      ensures Held() == Service(map[], [], volumes, 1)
    {
      sessions, requestJobs, replyJobs := [], [], [];
      table := new SessionTable();
      server := new NdmpServer(volumes);
    }

    // add_job_to_session, and get_session_info as the handler calls it.
    method Enter(fd: int, id: nat) returns (session: SessionInfo)
      requires Now().Some?
      modifies table, table.Repr
      ensures Now() == Some(old(Now()).value.(table := AddJob(old(table.table), fd, id)))
      ensures fd in table.byId && table.byId[fd] == session && session.sessionId == fd
      ensures fresh(table.Repr - old(table.Repr))
      ensures Held() == ServiceAfter(old(Held()), fd, FoundIn(old(Held()), fd), true)
    {
      ghost var held := Held();
      FoundHeld(fd);
      table.AddJobToSession(fd, id);
      session := table.GetSessionInfo(fd);
      HeldAfter(held, fd, FoundIn(held, fd));
    }

    // The handler, on the record that get_session_info returns to it.
    method Serve(job: Job, session: SessionInfo, sys: System) returns (done: Job, copy: Option<Copy>)
      requires Now().Some? && session.sessionId in table.byId && table.byId[session.sessionId] == session
      requires Expected(job, Found(session.sessionId), sys).Some?
      modifies server`sequence, server.data, session`dataState, session`connectionState, session`moverState
      ensures Expected(job, old(Found(session.sessionId)), sys) == Some(Left(done, copy, Found(session.sessionId)))
    {
      copy := None;
      if job.txn.isConnect {
        done := Greet(job, session.sessionId, sys.time);
      } else {
        done, copy := ServeRequest(job, session, sys);
      }
    }

    method Greet(job: Job, fd: int, time: int) returns (done: Job)
      requires ULong.Holds(server.sequence) && ULong.Holds(time)
      modifies server`sequence
      ensures Left(done, None, Found(fd)) == AfterConnect(job, old(Found(fd)), time)
    {
      var n := server.sequence;
      GreetingReads(n, time);
      var bytes := server.AcceptNotify(time);
      done := Job(job.txn.(reply := Message(Notify, n)), bytes);
    }

    method ServeRequest(job: Job, session: SessionInfo, sys: System) returns (done: Job, copy: Option<Copy>)
      requires Now().Some? && session.sessionId in table.byId && table.byId[session.sessionId] == session
      requires Servable(job, Found(session.sessionId), sys) && !job.txn.isConnect
      modifies server`sequence, server.data, session`dataState, session`connectionState, session`moverState
      ensures Left(done, copy, Found(session.sessionId)) == AfterRequest(job, old(Found(session.sessionId)), sys)
    {
      ghost var before := Found(session.sessionId);
      assert before == server.Finds(session);
      var n := server.sequence;
      var reply;
      reply, copy := server.XdrDecodeEncode(job.bytes, session, sys);
      assert Found(session.sessionId) == RequestLeaves(job.bytes, before, sys);
      done := if reply.None? then job else Job(AnsweredTxn(job.txn, AnswerTo(job), n), reply.value);
    }

    method ServeBy(job: Job, session: SessionInfo, sys: System, ghost spec: Before -> Option<After>)
      returns (done: Job, copy: Option<Copy>)
      requires Now().Some? && session.sessionId in table.byId && table.byId[session.sessionId] == session
      requires Specifies(spec, job, sys) && spec(Found(session.sessionId)).Some?
      modifies server`sequence, server.data, session`dataState, session`connectionState, session`moverState
      ensures spec(old(Found(session.sessionId))) == Some(Left(done, copy, Found(session.sessionId)))
    {
      assert spec(Found(session.sessionId)) == Expected(job, Found(session.sessionId), sys);
      done, copy := Serve(job, session, sys);
    }

    // The same, with what becomes of everything else.
    method ServeAs(job: Job, session: SessionInfo, sys: System, ghost spec: Before -> Option<After>)
      returns (done: Job, copy: Option<Copy>)
      requires Now().Some? && session.sessionId in table.byId && table.byId[session.sessionId] == session
      requires Specifies(spec, job, sys) && spec(Found(session.sessionId)).Some?
      modifies server`sequence, server.data, session`dataState, session`connectionState, session`moverState
      ensures Now() == Some(old(Now()).value.(sequence := server.sequence))
      ensures spec(old(Found(session.sessionId))) == Some(Left(done, copy, Found(session.sessionId)))
      ensures Held() == ServiceAfter(old(Held()), session.sessionId, Found(session.sessionId), true)
    {
      ghost var held := Held();
      done, copy := ServeBy(job, session, sys, spec);
      table.StatesOnly(session);
      HeldAfter(held, session.sessionId, Found(session.sessionId));
    }

    // cleanup_session
    method Leave(fd: int, id: nat) returns (gone: bool)
      requires Now().Some? && fd in table.byId
      modifies table, table.Repr
      ensures Now() == Some(old(Now()).value.(table := Cleanup(old(table.table), fd, id).0))
      ensures gone == Cleanup(old(table.table), fd, id).1
      ensures Held() == ServiceAfter(old(Held()), fd, FoundIn(old(Held()), fd), fd in table.table)
    {
      ghost var held := Held();
      FoundHeld(fd);
      gone := table.CleanupSession(fd, id);
      HeldAfter(held, fd, FoundIn(held, fd));
    }

    // xdr_decode_encode
    method XdrDecodeEncode(job: Job, sys: System, ghost spec: Before -> Option<After>)
      returns (done: Job, gone: bool, ghost after: After)
      requires Now().Some? && Specifies(spec, job, sys) && spec(FoundIn(Held(), job.txn.peer.fd)).Some?
      modifies table, table.Repr, server`sequence, server.data
      ensures var (records, terminated) :=
                Cleanup(AddJob(old(table.table), job.txn.peer.fd, job.txn.id), job.txn.peer.fd, job.txn.id);
              Now() == Some(old(Now()).value.(table := records, sequence := after.next.sequence)) && gone == terminated
      ensures spec(FoundIn(old(Held()), job.txn.peer.fd)) == Some(after) && after == Left(done, after.copy, after.next)
      ensures Held() == ServiceAfter(old(Held()), job.txn.peer.fd, after.next, job.txn.peer.fd in table.table)
    {
      ghost var fd, held := job.txn.peer.fd, Held();
      var session := Enter(job.txn.peer.fd, job.txn.id);
      FoundHeld(fd);
      AfterBoth(held, fd, FoundIn(held, fd), FoundIn(held, fd), true);
      var copy;
      done, copy := ServeAs(job, session, sys, spec);
      FoundHeld(fd);
      after := Left(done, copy, Found(fd));
      AfterBoth(held, fd, FoundIn(held, fd), after.next, true);
      gone := Leave(job.txn.peer.fd, job.txn.id);
      AfterBoth(held, fd, after.next, after.next, fd in table.table);
    }

    method TakeRequest()
      requires Now().Some? && requestJobs != []
      modifies this`requestJobs
      ensures Now() == Some(old(Now()).value.(requests := old(Now()).value.requests[1..])) && Held() == old(Held())
    {
      assert Txns(requestJobs[1..]) == Txns(requestJobs)[1..];
      requestJobs := requestJobs[1..];
    }

    // Enqueues the reply, or frees the transaction.
    method HandOver(done: Job, gone: bool)
      requires Now().Some?
      modifies this`replyJobs
      ensures var more := if gone || done.txn.reply.Silent? then [] else [done.txn];
              Now() == Some(old(Now()).value.(replies := old(Now()).value.replies + more))
      ensures replyJobs == old(replyJobs) + if gone || done.txn.reply.Silent? then [] else [done]
      ensures Held() == old(Held())
    {
      assert Txns(replyJobs) + [] == Txns(replyJobs);
      if !gone && !done.txn.reply.Silent? {
        TxnsAppend(replyJobs, done);
        replyJobs := replyJobs + [done];
      }
    }

    // The reply queue grew by the answer, or not at all.
    twostate predicate Replied(after: After)
      reads this
    {
      replyJobs == old(replyJobs) ||
      (|replyJobs| == |old(replyJobs)| + 1 && replyJobs[|replyJobs| - 1].txn == after.txn &&
       ClientDecode(replyJobs[|replyJobs| - 1].bytes) == after.received)
    }

    // run_job.  With an empty queue it yields.
    method RunJob(ghost s: State, sys: System) returns (ghost s': State, ghost after: Option<After>)
      requires Shows(s) && s.worker.Idle?
      requires requestJobs != [] ==>
                 Expected(requestJobs[0], FoundIn(Held(), requestJobs[0].txn.peer.fd), sys).Some?
      modifies this`requestJobs, this`replyJobs, table, table.Repr, server`sequence, server.data
      ensures Shows(s')
      ensures old(requestJobs) == [] ==>
                s' == s && after == None && replyJobs == old(replyJobs) && Held() == old(Held())
      ensures old(requestJobs) != [] ==>
                Decodes(old(requestJobs[0])) && s' == AfterJob(s, AnswerTo(old(requestJobs[0]))) &&
                after == Expected(old(requestJobs[0]), FoundIn(old(Held()), old(requestJobs[0].txn.peer.fd)), sys) &&
                after.Some?
      ensures after.Some? ==>
                old(requestJobs) != [] && Replied(after.value) &&
                var fd := old(requestJobs[0].txn.peer.fd);
                Held() == ServiceAfter(old(Held()), fd, after.value.next, fd in s'.table)
    {
      s', after := s, None;
      if requestJobs != [] {
        ghost var job := requestJobs[0];
        AnswerForetold(ExpectedOf(job, sys), job, FoundIn(Held(), job.txn.peer.fd), sys);
        ghost var left := RunNext(job, s, sys, ExpectedOf(job, sys), AnswerTo(job));
        s', after := AfterJob(s, AnswerTo(job)), Some(left);
      }
    }

    // The first request, taken and processed.
    method ProcessNext(ghost s: State, ghost first: Job, sys: System, ghost spec: Before -> Option<After>)
      returns (done: Job, gone: bool, ghost after: After)
      requires Shows(s) && requestJobs != [] && requestJobs[0] == first
      requires spec(FoundIn(Held(), first.txn.peer.fd)).Some? && Specifies(spec, first, sys)
      modifies this`requestJobs, table, table.Repr, server`sequence, server.data
      ensures spec(FoundIn(old(Held()), first.txn.peer.fd)) == Some(after)
      ensures after == Left(done, after.copy, after.next)
      ensures s.requests != [] && s.requests[0] == first.txn
      ensures var (records, terminated) :=
                Cleanup(AddJob(s.table, first.txn.peer.fd, first.txn.id), first.txn.peer.fd, first.txn.id);
              gone == terminated && Now() == Some(ViewOf(s).(requests := s.requests[1..], table := records,
                                                             sequence := after.next.sequence))
      ensures Held() == ServiceAfter(old(Held()), first.txn.peer.fd, after.next, first.txn.peer.fd in table.table)
    {
      var job := requestJobs[0];
      TakeRequest();
      done, gone, after := XdrDecodeEncode(job, sys, spec);
    }

    method RunNext(ghost first: Job, ghost s: State, sys: System, ghost spec: Before -> Option<After>,
                   ghost answer: Option<Kind>)
      returns (ghost after: After)
      requires Shows(s) && s.worker.Idle? && requestJobs != [] && requestJobs[0] == first
      requires Foretells(spec, first.txn, answer)
      requires spec(FoundIn(Held(), first.txn.peer.fd)).Some? && Specifies(spec, first, sys)
      modifies this`requestJobs, this`replyJobs, table, table.Repr, server`sequence, server.data
      ensures Shows(AfterJob(s, answer))
      ensures spec(FoundIn(old(Held()), first.txn.peer.fd)) == Some(after) && Replied(after)
      ensures Held() == ServiceAfter(old(Held()), first.txn.peer.fd, after.next, first.txn.peer.fd in table.table)
    {
      var done, gone;
      done, gone, after := ProcessNext(s, first, sys, spec);
      Conclude(s, done, gone, after, answer);
    }

    // The end of the turn, when the transaction is answered and cleaned up.
    method Conclude(ghost s: State, done: Job, gone: bool, ghost after: After, ghost answer: Option<Kind>)
      requires s.worker.Idle? && s.requests != [] && after == Left(done, after.copy, after.next)
      requires done.txn == AnsweredTxn(s.requests[0], answer, s.nextSequence)
      requires after.next.sequence == s.nextSequence + if answer.Some? then 1 else 0
      requires var job := s.requests[0];
               var (records, terminated) := Cleanup(AddJob(s.table, job.peer.fd, job.id), job.peer.fd, job.id);
               gone == terminated && Now() == Some(ViewOf(s).(requests := s.requests[1..], table := records,
                                                              sequence := after.next.sequence))
      modifies this`replyJobs
      ensures Shows(AfterJob(s, answer)) && Replied(after) && Held() == old(Held())
    {
      AfterJobParts(s, answer, table.table, gone, done.txn);
      HandOver(done, gone);
    }

    // process_response, with write_message when the session is still active.  With an empty queue it yields.
    method ProcessResponse(ghost s: State) returns (sent: Option<Job>, ghost s': State)
      requires Shows(s) && s.responder.None?
      modifies this`replyJobs
      ensures s' == (if s.replies == [] then s else Apply(Apply(s, Fetch), Send)) && Shows(s')
      ensures sent.Some? ==>
                Active(s, sent.value.txn.peer.fd) && old(replyJobs) != [] && sent.value == old(replyJobs)[0]
      ensures s'.sent == s.sent + if sent.Some?
              then [Sent(FirstMatch(s.sessions, ByFd(sent.value.txn.peer.fd)).value, sent.value.txn)] else []
    {
      s', sent := s, None;
      if replyJobs != [] {
        var job := replyJobs[0];
        replyJobs := replyJobs[1..];
        assert Txns(replyJobs) == s.replies[1..];
        if FirstMatch(sessions, ByFd(job.txn.peer.fd)).Some? {
          sent := Some(job);
        }
        s' := Apply(Apply(s, Fetch), Send);
      }
    }
  }
}
