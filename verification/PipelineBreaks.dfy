/** What the worker and the responder can do, with the main thread standing still or only finishing its accept and
    receiving once, as runs that exist in every state: they show that the conditions on a new connection and on a
    closing one cannot be weakened. */
module PipelineBreaks {
  import opened Common
  import opened LinkedQueue
  import opened Pipeline
  import opened PipelineSafety
  import opened PipelineClients

  // The worker's next step, answering every request, and how many steps it has to go.
  function Next(s: State): Step {
    match s.worker
    case Idle => TakeJob
    case Taken(_) => Register
    case Registered(t) => Handle(Some(if t.isConnect then Notify else Reply))
    case Handled(_) => CleanUp
    case Cleaned(_, _) => Deliver
  }

  function Work(s: State): nat {
    5 * |s.requests| +
    (match s.worker
     case Idle => 0
     case Taken(_) => 4
     case Registered(_) => 3
     case Handled(_) => 2
     case Cleaned(_, _) => 1)
  }

  // Steps of the worker and the responder only.
  predicate Quiet(run: seq<Step>) { forall step :: step in run ==> Backstage(step) }

  predicate Backstage(step: Step) {
    step.TakeJob? || step.Register? || step.Handle? || step.CleanUp? || step.Deliver? || step.Fetch? || step.Send?
  }

  predicate NoAccepts(run: seq<Step>) { forall step :: step in run ==> !step.Accept? }

  lemma NoAcceptsConcat(a: seq<Step>, b: seq<Step>)
    requires NoAccepts(a) && NoAccepts(b)
    ensures NoAccepts(a + b)
  {
  }

  lemma QuietCons(s: State, step: Step, rest: seq<Step>)
    requires Enabled(s, step) && Backstage(step) && Legal(Apply(s, step), rest) && Quiet(rest)
    ensures Legal(s, [step] + rest) && Quiet([step] + rest) && Exec(s, [step] + rest) == Exec(Apply(s, step), rest)
  {
    Cons(s, step, rest);
  }

  // -------------------------------------------------------------------------- a terminated record gets freed

  // The k-th is the first transaction on fd.
  ghost predicate FirstOn(ts: seq<Txn>, fd: int, k: nat) {
    k < |ts| && ts[k].peer.fd == fd && forall i :: 0 <= i < k ==> ts[i].peer.fd != fd
  }

  predicate Delivering(s: State) { s.worker.Cleaned? && !Drops(s, Deliver) }

  // What the worker leaves alone; of fd's transactions it hands over at most the one it was delivering.
  ghost predicate Aloof(s: State, s': State, fd: int) {
    && s'.sessions == s.sessions && s'.sent == s.sent && s'.responder == s.responder
    && (forall t :: t in s'.replies && t.peer.fd == fd ==> t in s.replies || (Delivering(s) && t == s.worker.txn))
    && if s.main.Marking? then s'.main.Marking? && s'.main.fd == s.main.fd && (s.main.freed ==> s'.main.freed)
       else s'.main == s.main
  }

  lemma AloofNext(s: State, fd: int)
    requires Enabled(s, Next(s))
    ensures Aloof(s, Apply(s, Next(s)), fd)
  {
    var s1 := Apply(s, Next(s));
    assert s1.replies == if Delivering(s) then s.replies + [s.worker.txn] else s.replies;
    assert s1.main == s.main || (s.main.Marking? && s1.main == s.main.(freed := true));
  }

  lemma AloofThen(s: State, s1: State, s': State, fd: int)
    requires Aloof(s, s1, fd) && Aloof(s1, s', fd) && (Delivering(s1) ==> s1.worker.txn.peer.fd != fd)
    ensures Aloof(s, s', fd)
  {
  }

  // From s to s' the worker cleaned up and dropped the first transaction on fd, and with it the record.
  ghost predicate Freed(s: State, s': State, fd: int, k: nat)
    requires k < |Unfinished(s)|
  {
    && fd !in s'.table && s'.worker.Idle? && s'.requests == Unfinished(s)[k + 1..] && Aloof(s, s', fd)
    && (s.main.Marking? && s.main.fd == fd ==> s'.main.freed)
  }

  lemma FreeNow(s: State, fd: int)
    requires JobsExact(s) && Ended(s, fd) && s.worker.Handled? && s.worker.txn.peer.fd == fd
    ensures Enabled(s, CleanUp) && Enabled(Apply(s, CleanUp), Deliver)
    ensures Freed(s, Apply(Apply(s, CleanUp), Deliver), fd, 0)
  {
    assert RemoveFirst([s.worker.txn.id], IsJob(s.worker.txn.id)) == [];
  }

  lemma NextEnabled(s: State)
    requires Unfinished(s) != []
    ensures Enabled(s, Next(s))
  {
  }

  lemma UnfinishedNext(s: State, k: nat)
    requires Enabled(s, Next(s)) && k < |Unfinished(s)|
    ensures var u, u1 := Unfinished(s), Unfinished(Apply(s, Next(s)));
            if s.worker.Handled? then u == [s.worker.txn] + u1 && u1 == u[1..]
            else |u1| == |u| && (forall i :: 0 <= i < |u| ==> u1[i].peer == u[i].peer) && u1[k + 1..] == u[k + 1..]
  {
    var u, u1 := Unfinished(s), Unfinished(Apply(s, Next(s)));
    if s.worker.Registered? {
      assert u[1..] == s.requests == u1[1..];
      assert u[k + 1..] == u[1..][k..] && u1[k + 1..] == u1[1..][k..];
    } else if !s.worker.Handled? {
      assert u1 == u;
    }
  }

  lemma EndedNext(s: State, fd: int)
    requires JobsExact(s) && Ended(s, fd) && Enabled(s, Next(s)) && !(s.worker.Handled? && s.worker.txn.peer.fd == fd)
    ensures var s1 := Apply(s, Next(s));
            JobsExact(s1) && Ended(s1, fd) && Work(s1) < Work(s) && (Delivering(s1) ==> s1.worker.txn.peer.fd != fd)
  {
    JobsStep(s, Next(s));
  }

  lemma FirstOnSame(ts: seq<Txn>, ts': seq<Txn>, fd: int, k: nat)
    requires FirstOn(ts, fd, k) && |ts'| == |ts| && forall i :: 0 <= i < |ts| ==> ts'[i].peer == ts[i].peer
    ensures FirstOn(ts', fd, k)
  {
  }

  lemma FirstOnRest(t: Txn, ts: seq<Txn>, fd: int, k: nat)
    requires FirstOn([t] + ts, fd, k) && t.peer.fd != fd
    ensures k > 0 && FirstOn(ts, fd, k - 1) && ts[k..] == ([t] + ts)[k + 1..]
  {
    assert forall i :: 0 <= i < |ts| ==> ts[i] == ([t] + ts)[i + 1];
  }

  // Whatever else is queued, the worker alone gets to the first transaction on fd.
  lemma NotYetFreed(s: State, fd: int, k: nat) returns (k1: nat)
    requires FirstOn(Unfinished(s), fd, k) && !(s.worker.Handled? && s.worker.txn.peer.fd == fd)
    ensures Enabled(s, Next(s))
    ensures var u1 := Unfinished(Apply(s, Next(s)));
            FirstOn(u1, fd, k1) && u1[k1 + 1..] == Unfinished(s)[k + 1..]
  {
    NextEnabled(s);
    UnfinishedNext(s, k);
    var u1 := Unfinished(Apply(s, Next(s)));
    if s.worker.Handled? {
      FirstOnRest(s.worker.txn, u1, fd, k);
      k1 := k - 1;
    } else {
      FirstOnSame(Unfinished(s), u1, fd, k);
      k1 := k;
    }
  }

  lemma {:induction false} FreeRecord(s: State, fd: int, k: nat) returns (more: seq<Step>)
    requires JobsExact(s) && Ended(s, fd) && FirstOn(Unfinished(s), fd, k)
    ensures Legal(s, more) && Quiet(more) && Freed(s, Exec(s, more), fd, k)
    decreases Work(s)
  {
    if s.worker.Handled? && s.worker.txn.peer.fd == fd {
      assert Unfinished(s)[0] == s.worker.txn;
      FreeNow(s, fd);
      QuietCons(Apply(s, CleanUp), Deliver, []);
      QuietCons(s, CleanUp, [Deliver]);
      more := [CleanUp] + [Deliver];
    } else {
      var k1 := NotYetFreed(s, fd, k);
      EndedNext(s, fd);
      var rest := FreeRecord(Apply(s, Next(s)), fd, k1);
      QuietCons(s, Next(s), rest);
      AloofNext(s, fd);
      AloofThen(s, Apply(s, Next(s)), Exec(Apply(s, Next(s)), rest), fd);
      more := [Next(s)] + rest;
    }
  }

  // ------------------------------------------------------------------- a transaction on a descriptor gets sent

  ghost predicate Outgoing(s: State, fd: int) {
    (exists t :: t in Held(s.responder) + s.replies && t.peer.fd == fd) || (Delivering(s) && s.worker.txn.peer.fd == fd)
  }

  // A transaction on fd is on its way out, or its cleanup will not drop it.
  ghost predicate Viable(s: State, fd: int) {
    || Outgoing(s, fd)
    || (!Ended(s, fd) && ((exists t :: t in s.requests && t.peer.fd == fd) ||
                          (Uncleaned(s.worker) != [] && s.worker.txn.peer.fd == fd && !Unanswered(s.worker))))
  }

  function Schedule(s: State): Step {
    if s.responder.Some? then Send else if s.replies != [] then Fetch else Next(s)
  }

  lemma ViableResponds(s: State, fd: int)
    requires Viable(s, fd) && (s.responder.Some? || s.replies != [])
    requires s.responder.Some? ==> s.responder.value.peer.fd != fd
    ensures Enabled(s, Schedule(s)) && Viable(Apply(s, Schedule(s)), fd)
  {
    var s1 := Apply(s, Schedule(s));
    if t :| t in Held(s.responder) + s.replies && t.peer.fd == fd {
      assert t in Held(s1.responder) + s1.replies;
    }
  }

  lemma ViableWorks(s: State, fd: int)
    requires Viable(s, fd) && s.responder.None? && s.replies == []
    ensures Enabled(s, Next(s)) && Viable(Apply(s, Next(s)), fd)
  {
    var s1 := Apply(s, Next(s));
    if s.worker.Idle? {
      assert s.requests == [s.requests[0]] + s.requests[1..];
    } else if Delivering(s) {
      assert s1.replies == [s.worker.txn];
      assert s.worker.txn in Held(s1.responder) + s1.replies;
    }
  }

  // The transactions on p's descriptor are no greetings, or not p's.
  predicate OffKey(t: Txn, p: Peer, own: bool) { if own then !t.isConnect else t.peer != p }

  ghost predicate AllOffKey(s: State, p: Peer, own: bool) {
    forall t :: t in Pending(s) && t.peer.fd == p.fd ==> OffKey(t, p, own)
  }

  lemma OffKeyStep(s: State, step: Step, p: Peer, own: bool)
    requires Enabled(s, step) && Backstage(step) && AllOffKey(s, p, own)
    ensures AllOffKey(Apply(s, step), p, own)
  {
    forall t | t in Pending(Apply(s, step)) && t.peer.fd == p.fd ensures OffKey(t, p, own) {
      PendingFrom(s, step, t);
      if step.Handle? { WorkerInLine(s); assert s.worker.txn in Pending(s); }
    }
  }

  // The next message to p after s is an off-key one.
  ghost predicate OffKeySent(s: State, s': State, p: Peer, own: bool) {
    && |s.sent| < |s'.sent| && s'.sent[..|s.sent|] == s.sent
    && (forall i :: |s.sent| <= i < |s'.sent| - 1 ==> s'.sent[i].to.conn != p.conn)
    && var e := s'.sent[|s'.sent| - 1]; e.to == p && OffKey(e.txn, p, own)
  }

  lemma SentByFd(s: State, p: Peer)
    requires Enabled(s, Send) && p in s.sessions && Distinct(s.sessions)
    ensures Apply(s, Send).sessions == s.sessions
    ensures if s.responder.value.peer.fd == p.fd then Apply(s, Send).sent == s.sent + [Sent(p, s.responder.value)]
            else Apply(s, Send).sent == s.sent ||
                 exists e :: Apply(s, Send).sent == s.sent + [e] && e.to.conn != p.conn
  {
    LookupByFd(s.sessions, s.responder.value.peer.fd);
  }

  lemma OffKeyLater(s: State, s1: State, s': State, p: Peer, own: bool)
    requires s1.sent == s.sent || exists e :: s1.sent == s.sent + [e] && e.to.conn != p.conn
    requires OffKeySent(s1, s', p, own)
    ensures OffKeySent(s, s', p, own)
  {
    if s1.sent != s.sent {
      var e :| s1.sent == s.sent + [e] && e.to.conn != p.conn;
      assert s'.sent[..|s.sent|] == s'.sent[..|s1.sent|][..|s.sent|] == s.sent;
      assert s'.sent[|s.sent|] == s'.sent[..|s1.sent|][|s.sent|] == e;
    }
  }

  lemma ScheduleWorks(s: State, fd: int)
    requires Viable(s, fd) && (s.responder.Some? ==> s.responder.value.peer.fd != fd)
    ensures Enabled(s, Schedule(s)) && Backstage(Schedule(s)) && Viable(Apply(s, Schedule(s)), fd)
    ensures var s1 := Apply(s, Schedule(s));
            && s1.sessions == s.sessions
            && (Work(s1) < Work(s) ||
                (Work(s1) == Work(s) &&
                 2 * |s1.replies| + |Held(s1.responder)| < 2 * |s.replies| + |Held(s.responder)|))
  {
    if s.responder.Some? || s.replies != [] { ViableResponds(s, fd); } else { ViableWorks(s, fd); }
  }

  lemma Approaches(s: State, p: Peer, own: bool)
    requires p in s.sessions && Distinct(s.sessions) && Viable(s, p.fd) && AllOffKey(s, p, own)
    requires s.responder.Some? ==> s.responder.value.peer.fd != p.fd
    ensures Enabled(s, Schedule(s)) && AllOffKey(Apply(s, Schedule(s)), p, own)
    ensures var s1 := Apply(s, Schedule(s));
            s1.sent == s.sent || exists e :: s1.sent == s.sent + [e] && e.to.conn != p.conn
  {
    ScheduleWorks(s, p.fd);
    if Schedule(s).Send? { SentByFd(s, p); }
    OffKeyStep(s, Schedule(s), p, own);
  }

  // The responder first, then the worker: some transaction on p's descriptor is sent to p.
  lemma {:induction false} SendOffKey(s: State, p: Peer, own: bool) returns (more: seq<Step>)
    requires p in s.sessions && Distinct(s.sessions) && Viable(s, p.fd) && AllOffKey(s, p, own)
    ensures Legal(s, more) && Quiet(more) && OffKeySent(s, Exec(s, more), p, own)
    decreases Work(s), 2 * |s.replies| + |Held(s.responder)|
  {
    var step := Schedule(s);
    if s.responder.Some? && s.responder.value.peer.fd == p.fd {
      SentByFd(s, p);
      assert s.responder.value in Pending(s);
      QuietCons(s, Send, []);
      more := [Send] + [];
    } else {
      ScheduleWorks(s, p.fd);
      Approaches(s, p, own);
      var rest := SendOffKey(Apply(s, step), p, own);
      QuietCons(s, step, rest);
      OffKeyLater(s, Apply(s, step), Exec(Apply(s, step), rest), p, own);
      more := [step] + rest;
    }
  }

  // ----------------------------------------------------------------------- an accept that is not safe goes wrong

  // What a client may expect: every message answers its own connection, and the greeting comes first.
  ghost predicate Served(s: State) {
    && (forall i :: 0 <= i < |s.sent| ==> s.sent[i].to == s.sent[i].txn.peer)
    && (forall k :: 0 <= k < |s.sent| && (forall i :: 0 <= i < k ==> s.sent[i].to.conn != s.sent[k].to.conn) ==>
          s.sent[k].txn.isConnect && s.sent[k].txn.reply.Message? && s.sent[k].txn.reply.kind.Notify?)
  }

  lemma FirstOnCons(t: Txn, ts: seq<Txn>, fd: int, k: nat)
    requires FirstOn(ts, fd, k) && t.peer.fd != fd
    ensures FirstOn([t] + ts, fd, k + 1) && ([t] + ts)[k + 1 + 1..] == ts[k + 1..]
  {
  }

  lemma {:induction false} FirstOld(ts: seq<Txn>, p: Peer) returns (k: nat)
    requires OldIn(ts, p) > 0 && forall t :: t in ts ==> t.peer != p
    ensures FirstOn(ts, p.fd, k) && OldIn(ts[k + 1..], p) == OldIn(ts, p) - 1
  {
    var t, rest := ts[0], ts[1..];
    assert ts == [t] + rest && t.peer != p;
    OldCons(t, rest, p);
    if OldOf(p)(t) {
      k := 0;
    } else {
      var k1 := FirstOld(rest, p);
      FirstOnCons(t, rest, p.fd, k1);
      k := k1 + 1;
    }
  }

  // After the accept no transaction is p's yet.
  ghost predicate New(s: State, p: Peer) {
    && p in s.sessions && Distinct(s.sessions) && s.main == Accepted(p)
    && (forall t :: t in Pending(s) ==> t.peer != p)
    && (forall i :: 0 <= i < |s.sent| ==> s.sent[i].to.conn != p.conn)
  }

  lemma OffKeyIsBad(s: State, s': State, p: Peer, own: bool)
    requires OffKeySent(s, s', p, own)
    requires own ==> forall i :: 0 <= i < |s.sent| ==> s.sent[i].to.conn != p.conn
    ensures !Served(s')
  {
    var k := |s'.sent| - 1;
    if own {
      forall i | 0 <= i < k ensures s'.sent[i].to.conn != s'.sent[k].to.conn {
        if i < |s.sent| { assert s'.sent[..|s.sent|][i] == s.sent[i]; }
      }
    }
  }

  lemma InPending(s: State)
    ensures forall t :: t in Unfinished(s) ==> t in Pending(s)
    ensures forall t :: t in Held(s.responder) + s.replies ==> t in Pending(s)
  {
    if !s.worker.Idle? { WorkerInLine(s); assert s.worker.txn in Pending(s); }
  }

  // With no record to drop it, a leftover that gets an answer is viable.
  lemma LeftoverViable(s: State, p: Peer)
    requires New(s, p) && !Clear(s, p) && (Ended(s, p.fd) ==> Outgoing(s, p.fd))
    ensures Viable(s, p.fd)
  {
    NoneOld(s.requests, p);
  }

  lemma LeftoverOutgoing(s: State, p: Peer)
    requires New(s, p) && !Clear(s, p) && Ended(s, p.fd) && !Outgoing(s, p.fd)
    ensures OldIn(Unfinished(s), p) != 1
  {
  }

  // Two leftovers: the first frees the record, the second is answered.
  lemma TwoLeftovers(s: State, p: Peer) returns (more: seq<Step>)
    requires New(s, p) && JobsExact(s) && Ended(s, p.fd) && !Outgoing(s, p.fd) && OldIn(Unfinished(s), p) > 1
    ensures Legal(s, more) && Quiet(more) && !Served(Exec(s, more))
  {
    InPending(s);
    var k := FirstOld(Unfinished(s), p);
    var a := FreeRecord(s, p.fd, k);
    var s1 := Exec(s, a);
    NoneOld(s1.requests, p);
    assert Viable(s1, p.fd);
    forall t | t in Pending(s1) && t.peer.fd == p.fd ensures OffKey(t, p, false) {
      assert t in Held(s.responder) + s.replies || t in Unfinished(s);
    }
    var b := SendOffKey(s1, p, false);
    OffKeyIsBad(s1, Exec(s1, b), p, false);
    Concat(s, a, b);
    more := a + b;
  }

  // An accepted connection's greeting and first request are queued.
  lemma TwoArrive(s: State, p: Peer) returns (s2: State, greeting: Txn, request: Txn)
    requires New(s, p) && JobsExact(s)
    ensures Legal(s, [AcceptJob, Receive(p.fd)]) && Exec(s, [AcceptJob, Receive(p.fd)]) == s2 && JobsExact(s2)
    ensures greeting.peer == request.peer == p && !request.isConnect
    ensures s2 == s.(requests := s.requests + [greeting] + [request], nextId := s.nextId + 2, main := Waiting)
  {
    var s1 := Apply(s, AcceptJob);
    LookupByFd(s.sessions, p.fd);
    s2 := Apply(s1, Receive(p.fd));
    greeting, request := Arrived(s, AcceptJob), Arrived(s1, Receive(p.fd));
    JobsStep(s, AcceptJob);
    JobsStep(s1, Receive(p.fd));
    Cons(s1, Receive(p.fd), []);
    Cons(s, AcceptJob, [Receive(p.fd)]);
    assert [AcceptJob] + [Receive(p.fd)] == [AcceptJob, Receive(p.fd)];
  }

  lemma UnfinishedWith(s: State, s2: State, greeting: Txn, request: Txn)
    requires s2.worker == s.worker && s2.requests == s.requests + [greeting] + [request]
    ensures Unfinished(s2) == Unfinished(s) + [greeting] + [request]
  {
  }

  lemma DropGreeting(s: State, s2: State, p: Peer, greeting: Txn, request: Txn) returns (more: seq<Step>)
    requires New(s, p) && JobsExact(s2) && Ended(s, p.fd) && !Outgoing(s, p.fd) && OldIn(Unfinished(s), p) == 0
    requires greeting.peer == request.peer == p && !request.isConnect
    requires s2 == s.(requests := s.requests + [greeting] + [request], nextId := s.nextId + 2, main := Waiting)
    ensures Legal(s2, more) && Quiet(more) && !Served(Exec(s2, more))
  {
    UnfinishedWith(s, s2, greeting, request);
    GreetingFirst(s, p, greeting, request);
    var a := FreeRecord(s2, p.fd, |Unfinished(s)|);
    RequestFirst(s, s2, Exec(s2, a), p, request);
    var b := SendsOffKey(s2, Exec(s2, a), p);
    Concat(s2, a, b);
    more := a + b;
  }

  lemma SendsOffKey(s2: State, s3: State, p: Peer) returns (more: seq<Step>)
    requires p in s3.sessions && Distinct(s3.sessions) && Viable(s3, p.fd) && AllOffKey(s3, p, true)
    requires s3.sent == s2.sent && forall i :: 0 <= i < |s2.sent| ==> s2.sent[i].to.conn != p.conn
    ensures Legal(s3, more) && Quiet(more) && !Served(Exec(s3, more))
  {
    more := SendOffKey(s3, p, true);
    OffKeyIsBad(s3, Exec(s3, more), p, true);
  }

  // No leftover but a terminated record: the greeting is dropped, and a request's reply comes first.
  lemma GreetingLost(s: State, p: Peer) returns (more: seq<Step>)
    requires New(s, p) && JobsExact(s) && Ended(s, p.fd) && !Outgoing(s, p.fd) && OldIn(Unfinished(s), p) == 0
    ensures Legal(s, more) && NoAccepts(more) && !Served(Exec(s, more))
  {
    var s2, greeting, request := TwoArrive(s, p);
    var rest := DropGreeting(s, s2, p, greeting, request);
    Concat(s, [AcceptJob, Receive(p.fd)], rest);
    NoAcceptsConcat([AcceptJob, Receive(p.fd)], rest);
    more := [AcceptJob, Receive(p.fd)] + rest;
  }

  lemma GreetingFirst(s: State, p: Peer, greeting: Txn, request: Txn)
    requires New(s, p) && OldIn(Unfinished(s), p) == 0 && greeting.peer == p
    ensures FirstOn(Unfinished(s) + [greeting] + [request], p.fd, |Unfinished(s)|)
  {
    NoneOld(Unfinished(s), p);
    InPending(s);
    forall i | 0 <= i < |Unfinished(s)| ensures Unfinished(s)[i].peer.fd != p.fd {
      assert Unfinished(s)[i] in Unfinished(s) && Unfinished(s)[i] in Pending(s);
    }
  }

  lemma RequestFirst(s: State, s2: State, s3: State, p: Peer, request: Txn)
    requires New(s, p) && Ended(s, p.fd) && !Outgoing(s, p.fd)
    requires request.peer == p && !request.isConnect && s2.replies == s.replies && s2.responder == s.responder
    requires s2.worker == s.worker && s2.sessions == s.sessions && s2.sent == s.sent
    requires |Unfinished(s)| < |Unfinished(s2)| && Freed(s2, s3, p.fd, |Unfinished(s)|) && s3.requests == [request]
    ensures Viable(s3, p.fd) && AllOffKey(s3, p, true)
  {
    assert request in s3.requests;
    forall t | t in Pending(s3) && t.peer.fd == p.fd ensures OffKey(t, p, true) {
      assert t in Held(s.responder) + s.replies || t == request;
    }
  }

  lemma Breaks(s: State, p: Peer) returns (more: seq<Step>)
    requires New(s, p) && JobsExact(s) && !Clear(s, p)
    ensures Legal(s, more) && NoAccepts(more) && !Served(Exec(s, more))
  {
    if Ended(s, p.fd) && !Outgoing(s, p.fd) {
      LeftoverOutgoing(s, p);
      if OldIn(Unfinished(s), p) == 0 {
        more := GreetingLost(s, p);
      } else {
        more := TwoLeftovers(s, p);
      }
    } else {
      LeftoverViable(s, p);
      more := SendOffKey(s, p, false);
      OffKeyIsBad(s, Exec(s, more), p, false);
    }
  }
}
