/** The record that terminate_session finds and then marks (`ndmp_msg.c`): exactly when the worker can free it in
    between, in any run. */
module PipelineRecords {
  import opened Pipeline
  import opened PipelineSafety
  import opened PipelineClients
  import opened PipelineBreaks
  import opened PipelineRuns

  // The record of fd was terminated before, for an earlier connection, and a transaction on fd is still to be cleaned
  // up.
  ghost predicate Doomed(s: State, fd: int) {
    Ended(s, fd) && exists t :: t in Unfinished(s) && t.peer.fd == fd
  }

  // In terminate_session for fd, with a record that nothing will free before it is marked.
  ghost predicate Secure(s: State, fd: int) {
    && (s.main.Closing? || (s.main.Marking? && !s.main.freed))
    && s.main.fd == fd && !Doomed(s, fd)
  }

  lemma SecureStep(s: State, step: Step, fd: int)
    requires Enabled(s, step) && Secure(s, fd) && !step.MarkClosed?
    ensures Secure(Apply(s, step), fd)
  {
    var s' := Apply(s, step);
    if step.CleanUp? { assert s.worker.txn in Unfinished(s); }
    if t :| t in Unfinished(s') && t.peer.fd == fd {
      if step.Handle? {
        assert s.worker.txn in Unfinished(s);
        assert t in s.requests ==> t in Unfinished(s);
      } else {
        assert t in Unfinished(s);
      }
    }
  }

  lemma {:induction false} SecureAlong(s: State, more: seq<Step>, fd: int)
    requires Legal(s, more) && MarkClosed !in more && Secure(s, fd)
    ensures Secure(Exec(s, more), fd)
    decreases |more|
  {
    if more != [] {
      assert more[0] in more && forall step :: step in more[1..] ==> step in more;
      SecureStep(s, more[0], fd);
      SecureAlong(Apply(s, more[0]), more[1..], fd);
    }
  }

  lemma {:induction false} FirstOnFd(ts: seq<Txn>, fd: int) returns (k: nat)
    requires exists t :: t in ts && t.peer.fd == fd
    ensures FirstOn(ts, fd, k)
  {
    if ts[0].peer.fd == fd {
      k := 0;
    } else {
      var k1 := FirstOnFd(ts[1..], fd);
      k := k1 + 1;
    }
  }

  // The worker gets to the record between the two halves of terminate_session.
  lemma DoomedDangles(s: State) returns (more: seq<Step>)
    requires JobsExact(s) && s.main.Closing? && Doomed(s, s.main.fd)
    ensures Legal(s, more) && MarkClosed !in more && Exec(s, more).main.Marking? && Exec(s, more).main.freed
  {
    var s1 := Apply(s, FindClosing);
    JobsStep(s, FindClosing);
    assert Unfinished(s1) == Unfinished(s);
    var k := FirstOnFd(Unfinished(s1), s.main.fd);
    var rest := FreeRecord(s1, s.main.fd, k);
    assert MarkClosed !in rest;
    Cons(s, FindClosing, rest);
    more := [FindClosing] + rest;
  }

  // Some continuation frees the record before the mark.
  ghost predicate CanDangle(s: State) {
    exists more :: Legal(s, more) && MarkClosed !in more && Exec(s, more).main.Marking? && Exec(s, more).main.freed
  }

  // In every run, when the main thread enters terminate_session: the record it finds can be freed before it is marked
  // exactly when it was terminated before and a transaction on the descriptor is still to be cleaned up.
  lemma DanglesIff(run: seq<Step>)
    requires Legal(START, run) && Exec(START, run).main.Closing?
    ensures var s := Exec(START, run); CanDangle(s) <==> Doomed(s, s.main.fd)
  {
    var s := Exec(START, run);
    KeptFromStart(run);
    if Doomed(s, s.main.fd) {
      var more := DoomedDangles(s);
    } else if more :| Legal(s, more) && MarkClosed !in more && Exec(s, more).main.Marking? && Exec(s, more).main.freed {
      SecureAlong(s, more, s.main.fd);
      assert false;
    }
  }

  // So the record is there to be marked, in every run, unless it was freed in that way.
  lemma MarkedRecord(run: seq<Step>)
    requires Legal(START, run) && Exec(START, run).main.Marking?
    ensures var s := Exec(START, run); !s.main.freed ==> s.main.fd in s.table
  {
    KeptFromStart(run);
  }
}
