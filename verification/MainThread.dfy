/** The main thread's methods of `Comm` are runs of the pipeline's steps: an accept is two of them, a pass over the
    ready descriptors one or three for each.  In a run the steps of other threads may come between; here none do. */
module MainThread {
  import opened Pipeline
  import opened LinkedQueue
  import opened Comm

  // What of a state the main thread works on.
  function HeldBy(s: State): Held { Held(s.sessions, s.requests, s.table) }

  // What the other threads work on, which it leaves alone.
  predicate Untouched(s: State, s': State) {
    && s'.nextSequence == s.nextSequence && s'.replies == s.replies && s'.worker == s.worker
    && s'.responder == s.responder && s'.sent == s.sent && s'.finished == s.finished && s'.dropped == s.dropped
  }

  // AcceptAllConnections with a new endpoint.
  lemma AcceptIsRun(s: State, fd: int)
    requires s.main.Waiting? && !Active(s, fd)
    ensures Legal(s, [Accept(fd), AcceptJob])
    ensures var s', p := Exec(s, [Accept(fd), AcceptJob]), Peer(fd, s.nextConn);
            HeldBy(s') == HeldBy(s).(sessions := s.sessions + [p],
                                     jobs := s.requests + [Txn(s.nextId, p, true, Silent)]) &&
            s'.main.Waiting? && s'.nextId == s.nextId + 1 && Untouched(s, s') &&
            s'.nextConn == s.nextConn + 1 && s'.seen == s.seen + {fd} && s'.left == s.left && s'.closed == s.closed
  {
    var s1 := Apply(s, Accept(fd));
    Cons(s1, AcceptJob, []);
    Cons(s, Accept(fd), [AcceptJob]);
    assert [Accept(fd)] + [AcceptJob] == [Accept(fd), AcceptJob];
  }

  // HandleAClientRequest.
  function RequestRun(fd: int, delivers: bool): seq<Step> {
    if delivers then [Receive(fd)] else [Hangup(fd), FindClosing, MarkClosed]
  }

  lemma RequestIsRun(s: State, fd: int, delivers: bool)
    requires s.main.Waiting? && Active(s, fd)
    ensures Legal(s, RequestRun(fd, delivers))
    ensures var s' := Exec(s, RequestRun(fd, delivers));
            HeldBy(s') == AfterRequest(HeldBy(s), fd, delivers, s.nextId) &&
            s'.main.Waiting? && s'.nextId == s.nextId + 1 && Untouched(s, s') &&
            s'.nextConn == s.nextConn && s'.seen == s.seen &&
            s'.left == s.left + (if delivers then {} else {FirstMatch(s.sessions, ByFd(fd)).value.conn}) &&
            s'.closed == s.closed + if delivers then [] else [s.nextId]
  {
    if delivers {
      Cons(s, Receive(fd), []);
      assert [Receive(fd)] + [] == RequestRun(fd, delivers);
    } else {
      var s1 := Apply(s, Hangup(fd));
      var s2 := Apply(s1, FindClosing);
      Cons(s2, MarkClosed, []);
      Cons(s1, FindClosing, [MarkClosed]);
      Cons(s, Hangup(fd), [FindClosing] + [MarkClosed]);
      assert [Hangup(fd)] + ([FindClosing] + [MarkClosed]) == RequestRun(fd, delivers);
    }
  }

  // HandleClientRequests, for the descriptors below n.
  function PassRun(ready: set<int>, data: set<int>, n: nat): seq<Step> {
    if n == 0 then [] else
    PassRun(ready, data, n - 1) + if n - 1 in ready then RequestRun(n - 1, n - 1 in data) else []
  }

  // From s to s' the main thread went through the pass as far as the given turn.
  predicate Passed(s: State, s': State, turn: Turn) {
    && Turn(HeldBy(s'), turn.served) == turn && s'.nextId == s.nextId + |turn.served|
    && s'.main.Waiting? && Untouched(s, s') && s'.nextConn == s.nextConn && s'.seen == s.seen && s.left <= s'.left
  }

  lemma PassOnce(s: State, s': State, turns: nat -> Turn, n: nat, ready: set<int>, data: set<int>)
    requires Passed(s, s', turns(n)) && Follows(turns, n, ready, data, s.nextId)
    ensures var more := if n in ready then RequestRun(n, n in data) else [];
            Legal(s', more) && Passed(s, Exec(s', more), turns(n + 1))
  {
    if n in ready { RequestIsRun(s', n, n in data); }
  }

  lemma {:induction false} TurnsAreRun(s: State, turns: nat -> Turn, ready: set<int>, data: set<int>, n: nat)
    requires s.main.Waiting? && turns(0) == Turn(HeldBy(s), [])
    requires forall i: nat :: Follows(turns, i, ready, data, s.nextId)
    ensures Legal(s, PassRun(ready, data, n)) && Passed(s, Exec(s, PassRun(ready, data, n)), turns(n))
  {
    if n > 0 {
      var before := PassRun(ready, data, n - 1);
      TurnsAreRun(s, turns, ready, data, n - 1);
      assert Follows(turns, n - 1, ready, data, s.nextId);
      PassOnce(s, Exec(s, before), turns, n - 1, ready, data);
      Concat(s, before, if n - 1 in ready then RequestRun(n - 1, n - 1 in data) else []);
    }
  }

  // The whole pass is a run that ends with the sessions, requests and records that the method leaves.
  lemma PassIsRun(s: State, ready: set<int>, data: set<int>, n: nat)
    requires s.main.Waiting? && PassOver(s.sessions, ready)
    ensures Legal(s, PassRun(ready, data, n))
    ensures Passed(s, Exec(s, PassRun(ready, data, n)), TurnAt(HeldBy(s), ready, data, s.nextId, n))
  {
    var turns := Turns(HeldBy(s), ready, data, s.nextId);
    assert s.requests + [] == s.requests;
    forall i: nat ensures Follows(turns, i, ready, data, s.nextId) {
      PassFollows(HeldBy(s), ready, data, s.nextId, i);
    }
    TurnsAreRun(s, turns, ready, data, n);
  }
}
