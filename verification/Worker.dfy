/** One turn of the worker's loop (`run_job` with `xdr_decode_encode`) as five of the pipeline's steps.  In a run the
    steps of other threads may come between; here none do. */
module Worker {
  import opened Common
  import opened Pipeline

  function Job(answer: Option<Kind>): seq<Step> { [TakeJob, Register, Handle(answer), CleanUp, Deliver] }

  // What the worker's turn comes to.
  function AfterJob(s: State, answer: Option<Kind>): State
    requires s.worker.Idle? && s.requests != []
  {
    var job := s.requests[0];
    var (table, gone) := Cleanup(AddJob(s.table, job.peer.fd, job.id), job.peer.fd, job.id);
    var s' := s.(requests := s.requests[1..], table := table, main := Holding(s.main, job.peer.fd, table),
                 nextSequence := s.nextSequence + if answer.Some? then 1 else 0);
    if gone || (answer.None? && job.reply.Silent?) then s'.(dropped := s.dropped + [job.id])
    else if answer.None? then s'.(replies := s.replies + [job])
    else s'.(replies := s.replies + [job.(reply := Message(answer.value, s.nextSequence))])
  }

  // Up to where the handler is done, and from there on.
  function AfterHandler(s: State, answer: Option<Kind>): State
    requires s.worker.Idle? && s.requests != []
  {
    var job := s.requests[0];
    var done := if answer.None? then job else job.(reply := Message(answer.value, s.nextSequence));
    s.(requests := s.requests[1..], table := AddJob(s.table, job.peer.fd, job.id), worker := Handled(done),
       nextSequence := s.nextSequence + if answer.Some? then 1 else 0)
  }

  function AfterCleanUp(s: State): State
    requires s.worker.Handled?
  {
    var txn := s.worker.txn;
    var (table, gone) := Cleanup(s.table, txn.peer.fd, txn.id);
    var s' := s.(table := table, worker := Idle, main := Holding(s.main, txn.peer.fd, table));
    if gone || txn.reply.Silent? then s'.(dropped := s.dropped + [txn.id]) else s'.(replies := s.replies + [txn])
  }

  lemma HandlerIsRun(s: State, answer: Option<Kind>)
    requires s.worker.Idle? && s.requests != [] && (s.requests[0].isConnect ==> answer == Some(Notify))
    ensures Legal(s, [TakeJob, Register, Handle(answer)])
    ensures Exec(s, [TakeJob, Register, Handle(answer)]) == AfterHandler(s, answer)
  {
    var s1 := Apply(s, TakeJob);
    var s2 := Apply(s1, Register);
    Cons(s2, Handle(answer), []);
    Cons(s1, Register, [Handle(answer)]);
    Cons(s, TakeJob, [Register] + [Handle(answer)]);
    assert [TakeJob] + ([Register] + [Handle(answer)]) == [TakeJob, Register, Handle(answer)];
  }

  lemma CleanUpIsRun(s: State)
    requires s.worker.Handled?
    ensures Legal(s, [CleanUp, Deliver]) && Exec(s, [CleanUp, Deliver]) == AfterCleanUp(s)
  {
    Cons(Apply(s, CleanUp), Deliver, []);
    Cons(s, CleanUp, [Deliver]);
    assert [CleanUp] + [Deliver] == [CleanUp, Deliver];
  }

  // The worker's turn is a run of its five steps.
  lemma JobIsRun(s: State, answer: Option<Kind>)
    requires s.worker.Idle? && s.requests != [] && (s.requests[0].isConnect ==> answer == Some(Notify))
    ensures Legal(s, Job(answer)) && Exec(s, Job(answer)) == AfterJob(s, answer)
  {
    HandlerIsRun(s, answer);
    CleanUpIsRun(AfterHandler(s, answer));
    Concat(s, [TakeJob, Register, Handle(answer)], [CleanUp, Deliver]);
    assert [TakeJob, Register, Handle(answer)] + [CleanUp, Deliver] == Job(answer);
  }
}
