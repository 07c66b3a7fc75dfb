/** Whose record a new connection works on.  A record goes by its descriptor, and one that was not terminated outlives
    the connection it was made for: the next connection on the descriptor finds the states it was left in. */
module PipelineInheritance {
  import opened Common
  import opened LinkedQueue
  import opened Pipeline
  import opened PipelineSafety
  import opened PipelineClients
  import opened PipelineBreaks
  import opened PipelineRuns
  import opened PipelineReuse
  import opened Worker

  // There is no record on p's descriptor, and no transaction of another connection that could still work on one.
  ghost predicate NoRecord(s: State, p: Peer) {
    p.fd !in s.table && forall t :: t in Unfinished(s) ==> !OldOf(p)(t)
  }

  // So it is now, or after some step of the run.
  ghost predicate RenewedIn(s: State, run: seq<Step>, p: Peer)
    requires Legal(s, run)
    decreases |run|
  {
    NoRecord(s, p) || (run != [] && RenewedIn(Apply(s, run[0]), run[1..], p))
  }

  // A record that terminate_session has not marked.
  predicate Lives(s: State, fd: int) { fd in s.table && !s.table[fd].terminated }

  ghost predicate Tended(s: State, p: Peer) {
    PeersKept(s) && JobsExact(s) && p in s.sessions && InTurn(Pending(s), p) && Clear(s, p)
  }

  lemma TendedStep(s: State, step: Step, p: Peer)
    requires Enabled(s, step) && Tended(s, p) && step != Hangup(p.fd)
    ensures Tended(Apply(s, step), p)
  {
    PeersStep(s, step);
    JobsStep(s, step);
    InTurnStep(s, step, p);
    ClearStep(s, step, p);
    if step.Hangup? { RemoveByFd(s.sessions, step.fd); }
  }

  lemma LivesStep(s: State, step: Step, p: Peer)
    requires Enabled(s, step) && Tended(s, p) && Lives(s, p.fd)
    ensures Lives(Apply(s, step), p.fd)
  {
  }

  lemma {:induction false} LivesOn(s: State, run: seq<Step>, p: Peer)
    requires Legal(s, run) && Hangup(p.fd) !in run && Tended(s, p) && Lives(s, p.fd)
    ensures !RenewedIn(s, run, p)
    decreases |run|
  {
    if run != [] {
      assert run[0] in run && forall step :: step in run[1..] ==> step in run;
      TendedStep(s, run[0], p);
      LivesStep(s, run[0], p);
      LivesOn(Apply(s, run[0]), run[1..], p);
    }
  }

  lemma AbsentIsGone(s: State, p: Peer)
    requires Tended(s, p) && p.fd !in s.table
    ensures NoRecord(s, p)
  {
    NoneOld(s.requests, p);
  }

  lemma DyingStep(s: State, step: Step, p: Peer)
    requires Enabled(s, step) && Tended(s, p) && Ended(s, p.fd)
    ensures Ended(Apply(s, step), p.fd) || p.fd !in Apply(s, step).table
  {
  }

  lemma {:induction false} DiesFirst(s: State, run: seq<Step>, p: Peer)
    requires Legal(s, run) && Hangup(p.fd) !in run && Tended(s, p) && !Lives(s, p.fd)
    requires Exec(s, run).worker.Registered? && Exec(s, run).worker.txn.peer == p
    ensures RenewedIn(s, run, p)
    decreases |run|
  {
    if p.fd !in s.table {
      AbsentIsGone(s, p);
    } else if run == [] {
      OwnCleanUp(s, p);
      assert false;
    } else {
      assert run[0] in run && forall step :: step in run[1..] ==> step in run;
      TendedStep(s, run[0], p);
      DyingStep(s, run[0], p);
      DiesFirst(Apply(s, run[0]), run[1..], p);
    }
  }

  // Exactly when a connection works on a record that was there before it, after a safe accept: when that record is not
  // terminated at the accept.  Then it stays until the connection is hung up; otherwise there is a moment without a
  // record, and with nothing left of others, before any handler works for the connection.
  lemma InheritsIff(run: seq<Step>, fd: int, more: seq<Step>)
    requires Legal(START, run) && SafeRun(START, run) && Enabled(Exec(START, run), Accept(fd))
    requires Safe(Exec(START, run), Accept(fd))
    requires Legal(Apply(Exec(START, run), Accept(fd)), more) && Hangup(fd) !in more
    requires var s, s' := Exec(START, run), Exec(Apply(Exec(START, run), Accept(fd)), more);
             s'.worker.Registered? && s'.worker.txn.peer == Peer(fd, s.nextConn)
    ensures var s := Exec(START, run);
            Lives(s, fd) <==> !RenewedIn(Apply(s, Accept(fd)), more, Peer(fd, s.nextConn))
  {
    var s := Exec(START, run);
    var s', p := Apply(s, Accept(fd)), Peer(fd, s.nextConn);
    GuardedFromStart(run);
    AcceptGuarded(s, fd);
    assert p in s'.sessions;
    if Lives(s, fd) {
      LivesOn(s', more, p);
    } else {
      DiesFirst(s', more, p);
    }
  }

  // ------------------------------------------------------------------------------------------------- an inheritance

  const FIRST_LEFT := Txn(1, Peer(5, 0), false, Silent)
  const SECOND_LEFT := Txn(2, Peer(5, 0), false, Silent)

  const TALKED := TALKING.(requests := [FIRST_LEFT, SECOND_LEFT], nextId := 3)
  const DEPARTED := State(4, 1, 2, [], [FIRST_LEFT, SECOND_LEFT], [], map[5 := Info([], true)], Waiting, Idle, None,
                          {0}, {5}, [GREETED], [GREETED.txn], [], [3])
  const FREED := DEPARTED.(nextSequence := 3, requests := [SECOND_LEFT], table := map[], dropped := [1])
  const BEQUEATHED := FREED.(requests := [], table := map[5 := FRESH], dropped := [1, 2])

  lemma TwoRequests()
    ensures Legal(TALKING, [Receive(5), Receive(5)]) && Exec(TALKING, [Receive(5), Receive(5)]) == TALKED
  {
    Cons(Apply(TALKING, Receive(5)), Receive(5), []);
    Cons(TALKING, Receive(5), [Receive(5)]);
    assert [Receive(5)] + [Receive(5)] == [Receive(5), Receive(5)];
  }

  lemma FirstTurn()
    ensures Legal(DEPARTED, Job(Some(Reply))) && Exec(DEPARTED, Job(Some(Reply))) == FREED
  {
    JobIsRun(DEPARTED, Some(Reply));
    var t := AddJob(DEPARTED.table, 5, 1);
    assert t[5].jobs == [1] && RemoveFirst(t[5].jobs, IsJob(1)) == [];
    assert Cleanup(t, 5, 1).0 == map[];
  }

  lemma SecondTurn()
    ensures Legal(FREED, Job(None)) && Exec(FREED, Job(None)) == BEQUEATHED
  {
    JobIsRun(FREED, None);
    var t := AddJob(FREED.table, 5, 2);
    assert t[5].jobs == [2] && RemoveFirst(t[5].jobs, IsJob(2)) == [];
    assert Cleanup(t, 5, 2).0 == map[5 := FRESH];
  }

  lemma Departure()
    ensures Legal(TALKED, LEAVE) && Exec(TALKED, LEAVE) == DEPARTED
  {
    Leaving(TALKED);
    assert {} + {0 as nat} == {0 as nat} && [] + [3 as nat] == [3 as nat];
    assert Terminate(TALKED.table, 5) == map[5 := Info([], true)];
  }

  lemma LastTurns()
    ensures var run := LEAVE + (Job(Some(Reply)) + Job(None));
            Legal(TALKED, run) && Exec(TALKED, run) == BEQUEATHED && NoAccepts(run)
  {
    Departure();
    FirstTurn();
    SecondTurn();
    Concat(DEPARTED, Job(Some(Reply)), Job(None));
    Concat(TALKED, LEAVE, Job(Some(Reply)) + Job(None));
  }

  lemma {:induction false} FirstAcceptIsSafe(run: seq<Step>)
    requires run != [] && run[0].Accept? && NoAccepts(run[1..]) && Legal(START, run)
    ensures SafeRun(START, run)
  {
    NoAcceptIsSafe(Apply(START, run[0]), run[1..]);
  }

  lemma BequeathedIsSafe()
    ensures Enabled(BEQUEATHED, Accept(5)) && Safe(BEQUEATHED, Accept(5)) && Lives(BEQUEATHED, 5)
  {
  }

  lemma TailOf(first: Step, second: Step, b: seq<Step>, c: seq<Step>)
    requires !second.Accept? && NoAccepts(b) && NoAccepts(c)
    ensures var run := [first, second] + b + c; run[0] == first && NoAccepts(run[1..])
  {
    assert ([first, second] + b + c)[1..] == [second] + b + c;
  }

  lemma Bequest() returns (run: seq<Step>)
    ensures run != [] && run[0].Accept? && NoAccepts(run[1..])
    ensures Legal(START, run) && Exec(START, run) == BEQUEATHED
  {
    var greet, talk := PipelineReuse.Work(Notify) + [Fetch, Send], [Receive(5), Receive(5)];
    var last := LEAVE + (Job(Some(Reply)) + Job(None));
    FirstGreeting();
    TwoRequests();
    LastTurns();
    Concat(TALKING, talk, last);
    Concat(START, ARRIVE + greet, talk + last);
    TailOf(Accept(5), AcceptJob, greet, talk + last);
    run := ARRIVE + greet + (talk + last);
  }

  // Two requests are left at a hangup.  Cleaning up the first one frees the record, the second one makes a new record
  // that nobody will terminate: the next connection on the descriptor is safe, and inherits its states.
  lemma InheritanceHappens()
    ensures exists run :: Legal(START, run) && SafeRun(START, run) &&
              var s := Exec(START, run); Enabled(s, Accept(5)) && Safe(s, Accept(5)) && Lives(s, 5)
  {
    var run := Bequest();
    FirstAcceptIsSafe(run);
    BequeathedIsSafe();
  }
}
