/** Runs in which a descriptor is reused while something of its former connection is left: a lost greeting, a reply to
    the wrong client, a freed record. */
module PipelineReuse {
  import opened Common
  import opened LinkedQueue
  import opened Pipeline
  import opened PipelineClients
  import opened PipelineRecords
  import opened Worker

  const ARRIVE := [Accept(5), AcceptJob]
  const LEAVE := [Hangup(5), FindClosing, MarkClosed]

  // The worker alone on the one queued request, then the responder if there is a reply.
  function Work(kind: Kind): seq<Step> { Job(Some(kind)) }

  lemma Arrival(s: State)
    requires s.main.Waiting? && s.sessions == [] && s.requests == []
    ensures Legal(s, ARRIVE)
    ensures var peer := Peer(5, s.nextConn);
            Exec(s, ARRIVE) == s.(sessions := [peer], requests := [Txn(s.nextId, peer, true, Silent)],
                                  nextConn := s.nextConn + 1, nextId := s.nextId + 1, seen := s.seen + {5})
  {
    var s1 := Apply(s, Accept(5));
    Cons(s1, AcceptJob, []);
    Cons(s, Accept(5), [AcceptJob]);
    assert [Accept(5)] + [AcceptJob] == ARRIVE;
  }

  lemma Working(s: State, t: Txn, kind: Kind)
    requires s.worker.Idle? && s.requests == [t] && (t.isConnect ==> kind.Notify?)
    requires s.main.Waiting? && s.replies == [] && t.peer.fd == 5 && t.reply.Silent?
    requires 5 in s.table ==> s.table[5].jobs == []
    ensures Legal(s, Work(kind))
    ensures var gone, reply := 5 in s.table && s.table[5].terminated, t.(reply := Message(kind, s.nextSequence));
            Exec(s, Work(kind)) ==
              s.(requests := [], nextSequence := s.nextSequence + 1,
                 table := if gone then s.table - {5} else s.table[5 := FRESH],
                 replies := if gone then [] else [reply], dropped := if gone then s.dropped + [t.id] else s.dropped)
  {
    JobIsRun(s, Some(kind));
    assert RemoveFirst([t.id], IsJob(t.id)) == [];
    assert AddJob(s.table, 5, t.id)[5].jobs == [t.id];
  }

  lemma Responding(s: State, t: Txn)
    requires s.responder.None? && s.replies == [t] && t.peer.fd == 5
    requires |s.sessions| == 1 && s.sessions[0].fd == 5
    ensures Legal(s, [Fetch, Send])
    ensures Exec(s, [Fetch, Send]) ==
            s.(replies := [], finished := s.finished + [t], sent := s.sent + [Sent(s.sessions[0], t)])
  {
    Cons(Apply(s, Fetch), Send, []);
    Cons(s, Fetch, [Send]);
    assert [Fetch] + [Send] == [Fetch, Send];
  }

  lemma Leaving(s: State)
    requires s.main.Waiting? && |s.sessions| == 1 && s.sessions[0].fd == 5
    ensures Legal(s, LEAVE)
    ensures Exec(s, LEAVE) ==
            s.(sessions := [], left := s.left + {s.sessions[0].conn}, nextId := s.nextId + 1,
               table := Terminate(s.table, 5), closed := s.closed + [s.nextId])
  {
    var s1 := Apply(s, Hangup(5));
    var s2 := Apply(s1, FindClosing);
    Cons(s2, MarkClosed, []);
    Cons(s1, FindClosing, [MarkClosed]);
    Cons(s, Hangup(5), [FindClosing] + [MarkClosed]);
    assert [Hangup(5)] + ([FindClosing] + [MarkClosed]) == LEAVE;
    assert Terminate(Ensure(s.table, 5), 5) == Terminate(s.table, 5);
  }

  const GREETED := Sent(Peer(5, 0), Txn(0, Peer(5, 0), true, Message(Notify, 1)))
  const AFTER_CLOSE := State(2, 1, 2, [], [], [], map[5 := Info([], true)], Waiting, Idle, None,
                             {0}, {5}, [GREETED], [GREETED.txn], [], [1])
  const REFUSED := State(3, 2, 3, [Peer(5, 1)], [], [], map[], Waiting, Idle, None,
                         {0}, {5}, [GREETED], [GREETED.txn], [2], [1])

  const TALKING := State(1, 1, 2, [Peer(5, 0)], [], [], map[5 := FRESH], Waiting, Idle, None,
                         {}, {5}, [GREETED], [GREETED.txn], [], [])

  lemma FirstGreeting()
    ensures var run := ARRIVE + (Work(Notify) + [Fetch, Send]); Legal(START, run) && Exec(START, run) == TALKING
  {
    Arrival(START);
    var s1 := Exec(START, ARRIVE);
    Working(s1, GREETED.txn.(reply := Silent), Notify);
    var s2 := Exec(s1, Work(Notify));
    Responding(s2, GREETED.txn);
    Concat(s1, Work(Notify), [Fetch, Send]);
    Concat(START, ARRIVE, Work(Notify) + [Fetch, Send]);
  }

  lemma FirstClient() returns (run: seq<Step>)
    ensures Legal(START, run) && Exec(START, run) == AFTER_CLOSE
  {
    FirstGreeting();
    Leaving(TALKING);
    Concat(START, ARRIVE + (Work(Notify) + [Fetch, Send]), LEAVE);
    run := ARRIVE + (Work(Notify) + [Fetch, Send]) + LEAVE;
  }

  lemma SecondClient() returns (run: seq<Step>)
    ensures Legal(AFTER_CLOSE, run) && Exec(AFTER_CLOSE, run) == REFUSED
  {
    Arrival(AFTER_CLOSE);
    Working(Exec(AFTER_CLOSE, ARRIVE), Txn(2, Peer(5, 1), true, Silent), Notify);
    Concat(AFTER_CLOSE, ARRIVE, Work(Notify));
    run := ARRIVE + Work(Notify);
  }

  lemma SecondRequest() returns (run: seq<Step>)
    ensures Legal(REFUSED, run)
    ensures var t := Txn(3, Peer(5, 1), false, Message(Reply, 3));
            Exec(REFUSED, run).sent == [GREETED, Sent(Peer(5, 1), t)]
  {
    Cons(REFUSED, Receive(5), []);
    var s1 := Exec(REFUSED, [Receive(5)]);
    var t := Txn(3, Peer(5, 1), false, Silent);
    Working(s1, t, Reply);
    Responding(Exec(s1, Work(Reply)), t.(reply := Message(Reply, 3)));
    Concat(s1, Work(Reply), [Fetch, Send]);
    Concat(REFUSED, [Receive(5)], Work(Reply) + [Fetch, Send]);
    run := [Receive(5)] + (Work(Reply) + [Fetch, Send]);
  }

  // With reuse the greeting can fail: the record that an idle closed session leaves behind is already terminated, so
  // the next connection on that descriptor has its NOTIFY_CONNECTED dropped and gets a reply first.
  lemma ReuseLosesGreeting()
    ensures exists run :: Legal(START, run) &&
              var sent := Exec(START, run).sent;
              |sent| == 2 && sent[0].to.conn == 0 && sent[1].to.conn == 1 && !sent[1].txn.isConnect
  {
    var a := FirstClient();
    var b := SecondClient();
    var c := SecondRequest();
    Concat(AFTER_CLOSE, b, c);
    Concat(START, a, b + c);
  }

  const QUEUED := State(1, 1, 2, [Peer(5, 0)], [], [GREETED.txn], map[5 := FRESH], Waiting, Idle, None,
                        {}, {5}, [], [], [], [])

  lemma GreetingQueued() returns (run: seq<Step>)
    ensures Legal(START, run) && Exec(START, run) == QUEUED
  {
    Arrival(START);
    Working(Exec(START, ARRIVE), GREETED.txn.(reply := Silent), Notify);
    Concat(START, ARRIVE, Work(Notify));
    run := ARRIVE + Work(Notify);
  }

  lemma LateReply() returns (run: seq<Step>)
    ensures Legal(QUEUED, run) && Exec(QUEUED, run).sent == [Sent(Peer(5, 1), GREETED.txn)]
  {
    Leaving(QUEUED);
    var s1 := Exec(QUEUED, LEAVE);
    var s2 := Apply(s1, Accept(5));
    Responding(s2, GREETED.txn);
    Cons(s1, Accept(5), [Fetch, Send]);
    Concat(QUEUED, LEAVE, [Accept(5)] + [Fetch, Send]);
    run := LEAVE + ([Accept(5)] + [Fetch, Send]);
  }

  // With reuse a reply can go to the wrong client: one that is still queued when its connection closes is sent to the
  // next connection on the descriptor.
  lemma ReuseMisdirects()
    ensures exists run :: Legal(START, run) &&
              exists e :: e in Exec(START, run).sent && e.to != e.txn.peer
  {
    var a := GreetingQueued();
    var b := LateReply();
    Concat(START, a, b);
    assert Sent(Peer(5, 1), GREETED.txn) in Exec(START, a + b).sent;
  }

  // With reuse terminate_session can hold a freed record: a second connection closes before its pseudo request is
  // cleaned up, and that cleanup frees the record which the first connection left terminated.
  lemma ReuseDangles()
    ensures exists run :: Legal(START, run) && Exec(START, run).main.Marking? && Exec(START, run).main.freed
  {
    var a := FirstClient();
    Arrival(AFTER_CLOSE);
    var s1 := Exec(AFTER_CLOSE, ARRIVE);
    var s2 := Apply(s1, Hangup(5));
    Cons(s1, Hangup(5), []);
    Concat(AFTER_CLOSE, ARRIVE, [Hangup(5)]);
    Concat(START, a, ARRIVE + [Hangup(5)]);
    var run := a + (ARRIVE + [Hangup(5)]);
    assert s2.requests[0] in Unfinished(s2);
    DanglesIff(run);
    var more :| Legal(s2, more) && MarkClosed !in more && Exec(s2, more).main.Marking? && Exec(s2, more).main.freed;
    Concat(START, run, more);
  }
}
