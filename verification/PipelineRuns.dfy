/** The guarantees of the pipeline over whole runs, for every interleaving of the three threads. */
module PipelineRuns {
  import opened Common
  import opened LinkedQueue
  import opened Pipeline
  import opened PipelineSafety
  import opened PipelineClients
  import opened PipelineBreaks

  // ------------------------------------------------------------------------------------------------ every run

  ghost predicate Kept(s: State) {
    Ordered(s) && (forall id: nat :: Owned(s, id)) && JobsExact(s) && Sequenced(s) && PeersKept(s)
  }

  lemma {:induction false} KeptAlong(s: State, run: seq<Step>)
    requires Legal(s, run) && Kept(s)
    ensures Kept(Exec(s, run))
    decreases |run|
  {
    if run != [] {
      OrderedStep(s, run[0]);
      forall id: nat ensures Owned(Apply(s, run[0]), id) { OwnedStep(s, run[0], id); }
      JobsStep(s, run[0]);
      SequencedStep(s, run[0]);
      PeersStep(s, run[0]);
      KeptAlong(Apply(s, run[0]), run[1..]);
    }
  }

  lemma NothingAtStart()
    ensures Pending(START) == [] && Line(START) == [] && Flow(START) == [] && Transactions(START.sent) == []
    ensures PeersKept(START) && Labelled(START)
  {
  }

  lemma KeptAtStart()
    ensures Kept(START)
  {
    NothingAtStart();
    assert Ordered(START) && JobsExact(START);
    assert Sequenced(START);
    forall id: nat ensures Owned(START, id) {
    }
  }

  lemma KeptFromStart(run: seq<Step>)
    requires Legal(START, run)
    ensures Kept(Exec(START, run))
  {
    KeptAtStart();
    KeptAlong(START, run);
  }

  // Order: finished transactions, the responder's, the reply queue, the worker's and the request queue list
  // transactions in arrival order; so replies go out in request order, at most one per request.
  lemma ArrivalOrder(run: seq<Step>)
    requires Legal(START, run)
    ensures var s := Exec(START, run);
            (forall i, j :: 0 <= i < j < |Line(s)| ==> Line(s)[i].id < Line(s)[j].id) &&
            (forall i, j :: 0 <= i < j < |s.sent| ==> s.sent[i].txn.id < s.sent[j].txn.id)
  {
    KeptFromStart(run);
    var s := Exec(START, run);
    forall i, j | 0 <= i < j < |s.sent| ensures s.sent[i].txn.id < s.sent[j].txn.id {
      assert Flow(s)[i] == s.sent[i].txn && Flow(s)[j] == s.sent[j].txn;
    }
  }

  // Ownership: every transaction allocated so far is in exactly one place - on its way, with the main thread, or
  // freed once by the responder, the worker or the main thread - and no other is anywhere.
  lemma OneOwner(run: seq<Step>, id: nat)
    requires Legal(START, run)
    ensures var s := Exec(START, run);
            Count(s.finished, id) + Count(Pending(s), id) + multiset(s.dropped)[id] + multiset(s.closed)[id] +
            One((s.main.Closing? || s.main.Marking?) && s.main.id == id) == One(id < s.nextId)
  {
    KeptFromStart(run);
    var s := Exec(START, run);
    CountConcat(s.finished, Pending(s), id);
    assert Owned(s, id);
  }

  // Jobs: the queues of all session records together hold exactly what the worker has registered and not cleaned
  // up; and when a step frees a record, that record has no job left.
  lemma JobQueues(run: seq<Step>, step: Step, fd: int)
    requires Legal(START, run) && Enabled(Exec(START, run), step)
    ensures var s := Exec(START, run);
            (fd in s.table ==> s.table[fd].jobs == JobsOf(s.worker, fd)) &&
            (JobsOf(s.worker, fd) != [] ==> fd in s.table) &&
            (fd in s.table && fd !in Apply(s, step).table ==>
               step.CleanUp? && s.table[fd].terminated && s.table[fd].jobs == [s.worker.txn.id])
  {
    KeptFromStart(run);
    var s := Exec(START, run);
    if fd in s.table && fd !in Apply(s, step).table {
      FreedWhenEmpty(s, step, fd);
    }
  }

  // Sequence numbers: while the counter has not passed 2^31 they increase along everything sent, hence along each
  // connection's stream, as the 32-bit words that travel.
  lemma SequenceIncreases(run: seq<Step>)
    requires Legal(START, run) && Exec(START, run).nextSequence <= TWO31
    ensures var sent := Exec(START, run).sent;
            forall i, j :: 0 <= i < j < |sent| ==>
              sent[i].txn.reply.Message? && sent[j].txn.reply.Message? &&
              sent[i].txn.reply.sequence % TWO32 < sent[j].txn.reply.sequence % TWO32
  {
    KeptFromStart(run);
    var s := Exec(START, run);
    forall i, j | 0 <= i < j < |s.sent|
      ensures s.sent[i].txn.reply.Message? && s.sent[j].txn.reply.Message? &&
              s.sent[i].txn.reply.sequence % TWO32 < s.sent[j].txn.reply.sequence % TWO32
    {
      assert Flow(s)[i] == Transactions(s.sent)[i] && Flow(s)[j] == Transactions(s.sent)[j];
    }
  }

  // What was sent on the socket of connection c.
  function SentTo(c: nat, sent: seq<Sent>): seq<Sent> { Filter((e: Sent) => e.to.conn == c, sent) }

  // Once a connection has left the active sessions, nothing more is sent to it, whatever the threads do next.
  lemma {:induction false} NothingAfterLeaving(s: State, more: seq<Step>, c: nat)
    requires Legal(s, more) && ActiveKept(s) && c in s.left
    ensures SentTo(c, Exec(s, more).sent) == SentTo(c, s.sent)
    decreases |more|
  {
    if more != [] {
      var s' := Apply(s, more[0]);
      ActiveStep(s, more[0]);
      NothingAfterLeaving(s', more[1..], c);
      if more[0].Send? {
        LookupByFd(s.sessions, s.responder.value.peer.fd);
        if s'.sent != s.sent {
          FilterConcat((e: Sent) => e.to.conn == c, s.sent, s'.sent[|s.sent|..]);
        }
      }
    }
  }

  lemma NothingAfterLeavingRun(run: seq<Step>, more: seq<Step>, c: nat)
    requires Legal(START, run) && Legal(Exec(START, run), more) && c in Exec(START, run).left
    ensures SentTo(c, Exec(Exec(START, run), more).sent) == SentTo(c, Exec(START, run).sent)
  {
    KeptFromStart(run);
    NothingAfterLeaving(Exec(START, run), more, c);
  }

  // ------------------------------------------------------------------------------------------------ safe runs

  // Every accept finds its descriptor clear.
  ghost predicate SafeRun(s: State, run: seq<Step>)
    requires Legal(s, run)
    decreases |run|
  {
    run == [] || (Safe(s, run[0]) && SafeRun(Apply(s, run[0]), run[1..]))
  }

  ghost predicate Guarded(s: State) { JobsExact(s) && Sequenced(s) && Tidy(s) && Greeted(s) }

  lemma {:induction false} GuardedAlong(s: State, run: seq<Step>)
    requires Legal(s, run) && SafeRun(s, run) && Guarded(s)
    ensures Guarded(Exec(s, run))
    decreases |run|
  {
    if run != [] {
      JobsStep(s, run[0]);
      SequencedStep(s, run[0]);
      TidyStep(s, run[0]);
      GreetedStep(s, run[0]);
      GuardedAlong(Apply(s, run[0]), run[1..]);
    }
  }

  lemma GuardedFromStart(run: seq<Step>)
    requires Legal(START, run) && SafeRun(START, run)
    ensures Guarded(Exec(START, run))
  {
    NothingAtStart();
    assert JobsExact(START) && Sequenced(START);
    assert Tidy(START);
    assert Greeted(START);
    GuardedAlong(START, run);
  }

  lemma GuardedIsServed(s: State)
    requires Guarded(s)
    ensures Served(s)
  {
    forall k | 0 <= k < |s.sent| && (forall i :: 0 <= i < k ==> s.sent[i].to.conn != s.sent[k].to.conn)
      ensures s.sent[k].txn.isConnect && s.sent[k].txn.reply.Message? && s.sent[k].txn.reply.kind.Notify?
    {
      var ts, c := Transactions(s.sent), s.sent[k].to.conn;
      assert GreetsFirst(c, ts);
      GreetingsSplit(c, ts, k);
      GreetingsNone(c, ts[..k]);
    }
  }

  // Every message goes to the connection whose transaction it answers.
  lemma RightClient(run: seq<Step>)
    requires Legal(START, run) && SafeRun(START, run)
    ensures forall e :: e in Exec(START, run).sent ==> e.to == e.txn.peer
  {
    GuardedFromStart(run);
  }

  // The first message sent on any connection is the NOTIFY_CONNECTED made for its accept.
  lemma NotifyFirst(run: seq<Step>, k: nat)
    requires Legal(START, run) && SafeRun(START, run) && k < |Exec(START, run).sent|
    requires var sent := Exec(START, run).sent; forall i :: 0 <= i < k ==> sent[i].to.conn != sent[k].to.conn
    ensures var e := Exec(START, run).sent[k];
            e.txn.isConnect && e.txn.reply.Message? && e.txn.reply.kind.Notify?
  {
    GuardedFromStart(run);
    GuardedIsServed(Exec(START, run));
  }

  lemma {:induction false} NoAcceptIsSafe(s: State, run: seq<Step>)
    requires Legal(s, run) && NoAccepts(run)
    ensures SafeRun(s, run)
    decreases |run|
  {
    if run != [] {
      assert run[0] in run && forall step :: step in run[1..] ==> step in run;
      NoAcceptIsSafe(Apply(s, run[0]), run[1..]);
    }
  }

  lemma NewAccepted(s: State, fd: int)
    requires Guarded(s) && Enabled(s, Accept(fd))
    ensures New(Apply(s, Accept(fd)), Peer(fd, s.nextConn)) && JobsExact(Apply(s, Accept(fd)))
    ensures Clear(Apply(s, Accept(fd)), Peer(fd, s.nextConn)) ==> Safe(s, Accept(fd))
  {
    var s' := Apply(s, Accept(fd));
    ActiveStep(s, Accept(fd));
    JobsStep(s, Accept(fd));
    assert Pending(s') == Pending(s) && Unfinished(s') == Unfinished(s);
    forall t | t in Pending(s) ensures t.peer != Peer(fd, s.nextConn) { assert Known(s, t); }
  }

  // Whatever follows, as long as accepts are safe, every client is served.
  ghost predicate GoesWell(s: State) { forall more :: Legal(s, more) && SafeRun(s, more) ==> Served(Exec(s, more)) }

  // Exactly when an accept is safe: if it finds the descriptor clear, then whatever follows, as long as the accepts in
  // it are safe too, greets every connection first and answers the right ones; if not, something can follow, without
  // another accept, that does not.
  lemma SafeIff(run: seq<Step>, fd: int)
    requires Legal(START, run) && SafeRun(START, run) && Enabled(Exec(START, run), Accept(fd))
    ensures var s := Exec(START, run); Safe(s, Accept(fd)) <==> GoesWell(Apply(s, Accept(fd)))
  {
    var s := Exec(START, run);
    GuardedFromStart(run);
    if Safe(s, Accept(fd)) {
      AcceptGuarded(s, fd);
      AllServed(Apply(s, Accept(fd)));
    } else {
      UnsafeAccept(s, fd);
    }
  }

  lemma AllServed(s: State)
    requires Guarded(s)
    ensures GoesWell(s)
  {
    forall more | Legal(s, more) && SafeRun(s, more) ensures Served(Exec(s, more)) {
      GuardedAlong(s, more);
      GuardedIsServed(Exec(s, more));
    }
  }

  lemma UnsafeAccept(s: State, fd: int)
    requires Guarded(s) && Enabled(s, Accept(fd)) && !Safe(s, Accept(fd))
    ensures !GoesWell(Apply(s, Accept(fd)))
  {
    NewAccepted(s, fd);
    var more := Breaks(Apply(s, Accept(fd)), Peer(fd, s.nextConn));
    NoAcceptIsSafe(Apply(s, Accept(fd)), more);
  }

  lemma AcceptGuarded(s: State, fd: int)
    requires Guarded(s) && Enabled(s, Accept(fd)) && Safe(s, Accept(fd))
    ensures Guarded(Apply(s, Accept(fd)))
  {
    JobsStep(s, Accept(fd));
    SequencedStep(s, Accept(fd));
    TidyStep(s, Accept(fd));
    GreetedStep(s, Accept(fd));
  }

  // ------------------------------------------------------------------------------- runs without descriptor reuse

  function Accepts(run: seq<Step>): seq<int> {
    if run == [] then [] else (if run[0].Accept? then [run[0].fd] else []) + Accepts(run[1..])
  }

  ghost predicate SeenKept(s: State) {
    && (forall p :: p in s.sessions ==> p.fd in s.seen)
    && (forall t :: t in Pending(s) ==> t.peer.fd in s.seen)
    && (forall fd :: fd in s.table ==> fd in s.seen)
    && (s.main.Closing? || s.main.Marking? ==> s.main.fd in s.seen)
    && (s.main.Accepted? ==> s.main.peer.fd in s.seen)
  }

  // Only a connection that left is marked, so its record is not freed before.
  ghost predicate RecordsKept(s: State) {
    && PeersKept(s)
    && (forall fd, p :: Ended(s, fd) && p in s.sessions ==> p.fd != fd)
    && (s.main.Closing? || s.main.Marking? ==> !Ended(s, s.main.fd))
    && (s.main.Marking? ==> !s.main.freed)
  }

  lemma RecordsStep(s: State, step: Step)
    requires Enabled(s, step) && SeenKept(s) && RecordsKept(s) && JobsExact(s)
    requires step.Accept? ==> step.fd !in s.seen
    ensures RecordsKept(Apply(s, step))
  {
    PeersStep(s, step);
    var s' := Apply(s, step);
    if step.Hangup? { LookupByFd(s.sessions, step.fd); RemoveByFd(s.sessions, step.fd); }
    if step.MarkClosed? {
      assert forall fd :: Ended(s', fd) ==> Ended(s, fd) || fd == s.main.fd;
    } else {
      assert forall fd :: Ended(s', fd) ==> Ended(s, fd);
    }
    if step.CleanUp? && s.main.Marking? { assert s.main.fd in s'.table; }
  }

  lemma SeenTxn(s: State, step: Step, t: Txn)
    requires Enabled(s, step) && SeenKept(s) && t in Pending(Apply(s, step))
    ensures t.peer.fd in Apply(s, step).seen
  {
    PendingFrom(s, step, t);
    if step.Handle? { WorkerInLine(s); assert s.worker.txn in Pending(s); }
    if step.Receive? { LookupByFd(s.sessions, step.fd); }
  }

  lemma SeenStep(s: State, step: Step)
    requires Enabled(s, step) && SeenKept(s)
    ensures SeenKept(Apply(s, step))
    ensures Apply(s, step).seen == s.seen + if step.Accept? then {step.fd} else {}
  {
    forall t | t in Pending(Apply(s, step)) ensures t.peer.fd in Apply(s, step).seen {
      SeenTxn(s, step, t);
    }
    if !s.worker.Idle? { WorkerInLine(s); assert s.worker.txn in Pending(s); }
    if step.Hangup? { LookupByFd(s.sessions, step.fd); SubsetByFd(s.sessions, step.fd); }
  }

  lemma {:induction false} SubsetByFd(ps: seq<Peer>, fd: int)
    ensures forall p :: p in RemoveFirst(ps, ByFd(fd)) ==> p in ps
  {
    if ps != [] { SubsetByFd(ps[1..], fd); }
  }

  ghost predicate NewAndDistinct(fds: seq<int>, seen: set<int>) {
    (forall i :: 0 <= i < |fds| ==> fds[i] !in seen) && (forall i, j :: 0 <= i < j < |fds| ==> fds[i] != fds[j])
  }

  lemma UnseenIsClear(s: State, fd: int)
    requires SeenKept(s) && fd !in s.seen
    ensures Safe(s, Accept(fd))
  {
    var p := Peer(fd, s.nextConn);
    InPending(s);
    NoneOld(s.requests, p);
    if s.worker.Cleaned? { WorkerInLine(s); assert s.worker.txn in Pending(s); }
  }

  // A run that never accepts the same descriptor twice is safe, and the record that terminate_session holds is never
  // freed in it.
  lemma {:induction false} NoReuseIsSafe(s: State, run: seq<Step>)
    requires Legal(s, run) && SeenKept(s) && RecordsKept(s) && JobsExact(s)
    requires NewAndDistinct(Accepts(run), s.seen)
    ensures SafeRun(s, run) && (Exec(s, run).main.Marking? ==> !Exec(s, run).main.freed)
    decreases |run|
  {
    if run != [] {
      var fds, rest := Accepts(run), Accepts(run[1..]);
      if run[0].Accept? {
        assert fds == [run[0].fd] + rest && fds[0] == run[0].fd;
        assert forall i :: 0 <= i < |rest| ==> rest[i] == fds[1..][i] == fds[i + 1];
        UnseenIsClear(s, run[0].fd);
      } else {
        assert fds == rest;
      }
      SeenStep(s, run[0]);
      RecordsStep(s, run[0]);
      JobsStep(s, run[0]);
      NoReuseIsSafe(Apply(s, run[0]), run[1..]);
    }
  }

  lemma NoReuseFromStart(run: seq<Step>)
    requires Legal(START, run) && NewAndDistinct(Accepts(run), {})
    ensures SafeRun(START, run) && (Exec(START, run).main.Marking? ==> !Exec(START, run).main.freed)
    ensures forall e :: e in Exec(START, run).sent ==> e.to == e.txn.peer
  {
    NothingAtStart();
    NoReuseIsSafe(START, run);
    RightClient(run);
  }
}
