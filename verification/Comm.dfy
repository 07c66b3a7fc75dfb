/** The main thread of `comm.c` on heap queues: what accepting, one pass over the ready descriptors and one request do
    to the active sessions and the request queue, and that the pass's session lookups never fail. */
module Comm {
  import opened Common
  import opened LinkedQueue
  import opened Pipeline
  import opened PipelineClients
  import opened Sessions

  // The sessions that stay when the descriptors below n have been served: those ready without data left.
  function Stays(n: int, ready: set<int>, data: set<int>): Peer -> bool {
    (p: Peer) => !(p.fd < n && p.fd in ready && p.fd !in data)
  }

  lemma {:induction false} StaysNext(ps: seq<Peer>, n: int, ready: set<int>, data: set<int>)
    requires Distinct(ps)
    ensures Filter(Stays(n + 1, ready, data), ps) ==
            if n in ready && n !in data then RemoveFirst(Filter(Stays(n, ready, data), ps), ByFd(n))
            else Filter(Stays(n, ready, data), ps)
  {
    if ps != [] {
      StaysNext(ps[1..], n, ready, data);
      if ps[0].fd == n && n in ready && n !in data {
        StaysSame(ps[1..], n, ready, data);
        assert Filter(Stays(n, ready, data), ps)[1..] == Filter(Stays(n, ready, data), ps[1..]);
      } else if Stays(n, ready, data)(ps[0]) {
        var rest := Filter(Stays(n, ready, data), ps[1..]);
        assert ([ps[0]] + rest)[1..] == rest;
      }
    }
  }

  lemma {:induction false} StaysSame(ps: seq<Peer>, n: int, ready: set<int>, data: set<int>)
    requires forall i :: 0 <= i < |ps| ==> ps[i].fd != n
    ensures Filter(Stays(n + 1, ready, data), ps) == Filter(Stays(n, ready, data), ps)
  {
    if ps != [] { StaysSame(ps[1..], n, ready, data); }
  }

  // The descriptors that one pass served, in order: each ready one below n once, none other.
  ghost predicate ServedOnce(fds: seq<int>, n: int, ready: set<int>) {
    && (forall i, j :: 0 <= i < j < |fds| ==> fds[i] < fds[j])
    && (forall fd :: fd in fds <==> fd in ready && fd < n)
  }

  // A session not yet served is found as at the start of the pass.
  lemma {:induction false} LookupStays(ps: seq<Peer>, n: int, ready: set<int>, data: set<int>)
    ensures FirstMatch(Filter(Stays(n, ready, data), ps), ByFd(n)) == FirstMatch(ps, ByFd(n))
  {
    if ps != [] {
      LookupStays(ps[1..], n, ready, data);
      var rest := Filter(Stays(n, ready, data), ps[1..]);
      assert ([ps[0]] + rest)[1..] == rest;
    }
  }

  lemma FoundStays(ps: seq<Peer>, n: int, ready: set<int>, data: set<int>)
    requires n in ready ==> exists p :: p in ps && p.fd == n
    ensures n in ready ==> FirstMatch(Filter(Stays(n, ready, data), ps), ByFd(n)).Some?
  {
    LookupStays(ps, n, ready, data);
    LookupByFd(ps, n);
  }

  // What a pass has done when it has looked at the descriptors below n: which it served, the sessions it left
  // active, and the requests it made; ps are the sessions at its start.
  datatype Pass = Pass(served: seq<int>, sessions: seq<Peer>, jobs: seq<Txn>)

  function Serve(before: Pass, fd: int, delivers: bool, id: nat): Pass {
    var found := FirstMatch(before.sessions, ByFd(fd));
    if found.None? then before
    else if delivers then
      Pass(before.served + [fd], before.sessions,
           before.jobs + [Txn(id + |before.served|, found.value, false, Silent)])
    else Pass(before.served + [fd], RemoveFirst(before.sessions, ByFd(fd)), before.jobs)
  }

  function PassUpto(ps: seq<Peer>, ready: set<int>, data: set<int>, id: nat, n: nat): Pass {
    if n == 0 then Pass([], ps, []) else
    var before := PassUpto(ps, ready, data, id, n - 1);
    if n - 1 in ready then Serve(before, n - 1, n - 1 in data, id) else before
  }

  // The session records when the descriptors below n have been served: those without data are marked terminated.
  function Ends(table: map<int, Info>, ready: set<int>, data: set<int>, n: nat): map<int, Info> {
    if n == 0 then table else
    var before := Ends(table, ready, data, n - 1);
    if n - 1 in ready && n - 1 !in data then Terminate(before, n - 1) else before
  }

  ghost predicate AllActive(ps: seq<Peer>, ready: set<int>) {
    forall fd :: fd in ready ==> 0 <= fd && exists p :: p in ps && p.fd == fd
  }

  lemma ServedNext(fds: seq<int>, fds': seq<int>, n: int, n': int, ready: set<int>)
    requires ServedOnce(fds, n, ready) && fds' == (if n in ready then fds + [n] else fds) && n' == n + 1
    ensures ServedOnce(fds', n', ready)
  {
    assert forall i :: 0 <= i < |fds| ==> fds[i] in fds;
    if n in ready {
      forall fd ensures fd in fds + [n] <==> fd in ready && fd < n + 1 {
        assert fd in fds + [n] <==> fd in fds || fd == n;
      }
    }
  }

  ghost predicate PassOver(ps: seq<Peer>, ready: set<int>) {
    Distinct(ps) && AllActive(ps, ready) && forall i :: 0 <= i < |ps| ==> 0 <= ps[i].fd
  }

  // The sessions without data have left, the others stay in place; and the next ready descriptor's lookup succeeds.
  lemma {:induction false} PassLookupSucceeds(ps: seq<Peer>, ready: set<int>, data: set<int>, id: nat, n: nat)
    requires PassOver(ps, ready)
    ensures PassUpto(ps, ready, data, id, n).sessions == Filter(Stays(n, ready, data), ps)
    ensures n in ready ==> FirstMatch(PassUpto(ps, ready, data, id, n).sessions, ByFd(n)).Some?
  {
    if n == 0 {
      FilterAll(Stays(0, ready, data), ps);
    } else {
      PassLookupSucceeds(ps, ready, data, id, n - 1);
      StaysNext(ps, n - 1, ready, data);
    }
    FoundStays(ps, n, ready, data);
  }

  lemma PassNext(ps: seq<Peer>, ready: set<int>, data: set<int>, id: nat, n: nat)
    requires PassOver(ps, ready)
    ensures var pass := PassUpto(ps, ready, data, id, n);
            PassUpto(ps, ready, data, id, n + 1) == (if n in ready then Serve(pass, n, n in data, id) else pass) &&
            (n in ready ==> FirstMatch(pass.sessions, ByFd(n)).Some?)
  {
    PassLookupSucceeds(ps, ready, data, id, n);
  }

  lemma ServedGrows(ps: seq<Peer>, ready: set<int>, data: set<int>, id: nat, n: nat)
    requires PassOver(ps, ready)
    ensures var served := PassUpto(ps, ready, data, id, n).served;
            PassUpto(ps, ready, data, id, n + 1).served == if n in ready then served + [n] else served
  {
    PassNext(ps, ready, data, id, n);
  }

  // A pass serves each ready descriptor below n once, in order, and no other.
  lemma {:induction false} PassServesOnce(
    served: seq<int>, ps: seq<Peer>, ready: set<int>, data: set<int>, id: nat, n: nat)
    requires PassOver(ps, ready) && served == PassUpto(ps, ready, data, id, n).served
    ensures ServedOnce(served, n, ready)
    decreases n
  {
    if n == 0 {
      assert ServedOnce([], 0, ready);
    } else {
      var before := PassUpto(ps, ready, data, id, n - 1).served;
      PassServesOnce(before, ps, ready, data, id, n - 1);
      ServedGrows(ps, ready, data, id, n - 1);
      ServedNext(before, served, n - 1, n, ready);
    }
  }

  // The requests of a pass come from the ready sessions with data, one each, in the order served, each from the
  // session that the descriptor had at the start of the pass.
  ghost predicate RequestsRight(pass: Pass, ps: seq<Peer>, ready: set<int>, data: set<int>, id: nat, n: int) {
    && (forall i :: 0 <= i < |pass.jobs| ==>
          var t := pass.jobs[i];
          t.peer in ps && t.peer.fd in ready && t.peer.fd in data && t.peer.fd < n && !t.isConnect &&
          id <= t.id < id + |pass.served|)
    && (forall i, j :: 0 <= i < j < |pass.jobs| ==>
          pass.jobs[i].id < pass.jobs[j].id && pass.jobs[i].peer.fd < pass.jobs[j].peer.fd)
    && (forall fd :: fd in ready && fd in data && fd < n ==>
          exists i :: 0 <= i < |pass.jobs| && pass.jobs[i].peer.fd == fd)
  }

  lemma RequestsSkip(pass: Pass, ps: seq<Peer>, ready: set<int>, data: set<int>, id: nat, n: int)
    requires RequestsRight(pass, ps, ready, data, id, n)
    ensures n !in ready ==> RequestsRight(pass, ps, ready, data, id, n + 1)
    ensures n !in data && FirstMatch(pass.sessions, ByFd(n)).Some? ==>
              RequestsRight(Serve(pass, n, false, id), ps, ready, data, id, n + 1)
  {
  }

  lemma RequestsServe(pass: Pass, ps: seq<Peer>, ready: set<int>, data: set<int>, id: nat, n: int, p: Peer)
    requires RequestsRight(pass, ps, ready, data, id, n) && n in ready && n in data
    requires FirstMatch(pass.sessions, ByFd(n)) == Some(p) && p in ps && p.fd == n
    ensures RequestsRight(Serve(pass, n, true, id), ps, ready, data, id, n + 1)
  {
    var after := Serve(pass, n, true, id);
    forall fd | fd in ready && fd in data && fd < n + 1
      ensures exists i :: 0 <= i < |after.jobs| && after.jobs[i].peer.fd == fd
    {
      if fd < n {
        var i :| 0 <= i < |pass.jobs| && pass.jobs[i].peer.fd == fd;
        assert after.jobs[i] == pass.jobs[i];
      } else {
        assert after.jobs[|pass.jobs|].peer == p;
      }
    }
  }

  lemma PassFinds(ps: seq<Peer>, ready: set<int>, data: set<int>, id: nat, n: nat) returns (p: Peer)
    requires PassOver(ps, ready) && n in ready
    ensures FirstMatch(PassUpto(ps, ready, data, id, n).sessions, ByFd(n)) == Some(p) && p in ps && p.fd == n
  {
    PassLookupSucceeds(ps, ready, data, id, n);
    LookupStays(ps, n, ready, data);
    LookupByFd(ps, n);
    p := FirstMatch(ps, ByFd(n)).value;
  }

  lemma RequestsNext(before: Pass, after: Pass, ps: seq<Peer>, ready: set<int>, data: set<int>, id: nat, n: nat)
    requires before == PassUpto(ps, ready, data, id, n) && after == PassUpto(ps, ready, data, id, n + 1)
    requires PassOver(ps, ready) && RequestsRight(before, ps, ready, data, id, n)
    ensures RequestsRight(after, ps, ready, data, id, n + 1)
  {
    PassNext(ps, ready, data, id, n);
    if n in ready && n in data {
      var p := PassFinds(ps, ready, data, id, n);
      RequestsServe(before, ps, ready, data, id, n, p);
    } else {
      RequestsSkip(before, ps, ready, data, id, n);
    }
  }

  lemma RequestsNone(ps: seq<Peer>, ready: set<int>, data: set<int>, id: nat)
    requires AllActive(ps, ready)
    ensures RequestsRight(Pass([], ps, []), ps, ready, data, id, 0)
  {
  }

  lemma {:induction false} PassRequests(pass: Pass, ps: seq<Peer>, ready: set<int>, data: set<int>, id: nat, n: nat)
    requires PassOver(ps, ready) && pass == PassUpto(ps, ready, data, id, n)
    ensures RequestsRight(pass, ps, ready, data, id, n)
    decreases n
  {
    if n == 0 {
      RequestsNone(ps, ready, data, id);
    } else {
      var before := PassUpto(ps, ready, data, id, n - 1);
      PassRequests(before, ps, ready, data, id, n - 1);
      RequestsNext(before, pass, ps, ready, data, id, n - 1);
    }
  }

  lemma Join(a: seq<Txn>, b: seq<Txn>, c: seq<Txn>)
    requires b <= c
    ensures a + b + c[|b|..] == a + c
  {
  }

  // What the main thread works on, and what a pass has done to it when it has served some descriptors.
  datatype Held = Held(sessions: seq<Peer>, jobs: seq<Txn>, table: map<int, Info>)
  datatype Turn = Turn(held: Held, served: seq<int>)

  function TurnAt(before: Held, ready: set<int>, data: set<int>, id: nat, i: nat): Turn {
    var pass := PassUpto(before.sessions, ready, data, id, i);
    Turn(Held(pass.sessions, before.jobs + pass.jobs, Ends(before.table, ready, data, i)), pass.served)
  }

  function Turns(before: Held, ready: set<int>, data: set<int>, id: nat): nat -> Turn {
    (i: nat) => TurnAt(before, ready, data, id, i)
  }

  // One request, or one closed connection.
  function AfterRequest(h: Held, fd: int, delivers: bool, id: nat): Held
    requires FirstMatch(h.sessions, ByFd(fd)).Some?
  {
    if delivers then h.(jobs := h.jobs + [Txn(id, FirstMatch(h.sessions, ByFd(fd)).value, false, Silent)])
    else h.(sessions := RemoveFirst(h.sessions, ByFd(fd)), table := Terminate(h.table, fd))
  }

  // The turns of a pass, one descriptor at a time.
  ghost predicate Follows(turns: nat -> Turn, i: nat, ready: set<int>, data: set<int>, id: nat) {
    if i in ready then
      FirstMatch(turns(i).held.sessions, ByFd(i)).Some? &&
      turns(i + 1) == Turn(AfterRequest(turns(i).held, i, i in data, id + |turns(i).served|), turns(i).served + [i])
    else turns(i + 1) == turns(i)
  }

  lemma PassFollows(before: Held, ready: set<int>, data: set<int>, id: nat, i: nat)
    requires PassOver(before.sessions, ready)
    ensures Follows(Turns(before, ready, data, id), i, ready, data, id)
  {
    PassNext(before.sessions, ready, data, id, i);
    if i in ready {
      var pass := PassUpto(before.sessions, ready, data, id, i);
      Join(before.jobs, pass.jobs, Serve(pass, i, i in data, id).jobs);
    }
  }

  // Active descriptors are distinct, not the listener, and at most maxfds.
  ghost predicate Sane(listener: int, maxfds: int, ps: seq<Peer>) {
    0 <= listener <= maxfds && Distinct(ps) && forall p :: p in ps ==> 0 <= p.fd <= maxfds && p.fd != listener
  }

  lemma SaneWithout(listener: int, maxfds: int, ps: seq<Peer>, fd: int)
    requires Sane(listener, maxfds, ps)
    ensures Sane(listener, maxfds, RemoveFirst(ps, ByFd(fd)))
  {
    RemoveByFd(ps, fd);
  }

  lemma SaneWith(listener: int, maxfds: int, ps: seq<Peer>, p: Peer)
    requires Sane(listener, maxfds, ps) && 0 <= p.fd && p.fd != listener
    requires forall q :: q in ps ==> q.fd != p.fd && q.conn != p.conn
    ensures Sane(listener, if p.fd > maxfds then p.fd else maxfds, ps + [p])
  {
  }

  lemma {:induction false} SaneFilter(listener: int, maxfds: int, ps: seq<Peer>, stays: Peer -> bool)
    requires Sane(listener, maxfds, ps)
    ensures Sane(listener, maxfds, Filter(stays, ps)) && forall p :: p in Filter(stays, ps) ==> p in ps
  {
    if ps != [] {
      var rest := Filter(stays, ps[1..]);
      SaneFilter(listener, maxfds, ps[1..], stays);
      assert forall i :: 0 <= i < |rest| ==> rest[i] in ps[1..];
      if stays(ps[0]) { SaneCons(listener, maxfds, ps[0], rest); }
    }
  }

  lemma SaneCons(listener: int, maxfds: int, p: Peer, ps: seq<Peer>)
    requires Sane(listener, maxfds, ps) && 0 <= p.fd <= maxfds && p.fd != listener
    requires forall q :: q in ps ==> q.fd != p.fd && q.conn != p.conn
    ensures Sane(listener, maxfds, [p] + ps)
  {
  }

  lemma SaneAfterPass(listener: int, maxfds: int, before: Held, ready: set<int>, data: set<int>, id: nat, n: nat)
    requires Sane(listener, maxfds, before.sessions) && AllActive(before.sessions, ready)
    ensures Sane(listener, maxfds, TurnAt(before, ready, data, id, n).held.sessions)
  {
    PassLookupSucceeds(before.sessions, ready, data, id, n);
    SaneFilter(listener, maxfds, before.sessions, Stays(n, ready, data));
  }

  // The turns of a whole pass.
  lemma PassTurns(before: Held, listener: int, maxfds: int, ready: set<int>, data: set<int>, id: nat)
    returns (turns: nat -> Turn)
    requires Sane(listener, maxfds, before.sessions) && AllActive(before.sessions, ready)
    ensures turns(0) == Turn(before, []) && forall i: nat :: Follows(turns, i, ready, data, id)
    ensures turns(maxfds + 1) == TurnAt(before, ready, data, id, maxfds + 1)
    ensures Sane(listener, maxfds, turns(maxfds + 1).held.sessions)
  {
    turns := Turns(before, ready, data, id);
    assert before.jobs + [] == before.jobs;
    forall i: nat ensures Follows(turns, i, ready, data, id) {
      PassFollows(before, ready, data, id, i);
    }
    SaneAfterPass(listener, maxfds, before, ready, data, id, maxfds + 1);
  }

  function FdsOf(ps: seq<Peer>): set<int> { set p | p in ps :: p.fd }

  lemma FdsNext(ps: seq<Peer>, i: nat)
    requires i < |ps|
    ensures FdsOf(ps[..i + 1]) == FdsOf(ps[..i]) + {ps[i].fd}
  {
    assert ps[..i + 1] == ps[..i] + [ps[i]];
  }

  class CommContext {
    const listener: int
    const sessions: Queue<Peer>
    const requestJobs: Queue<Txn>
    const records: SessionTable   // get_session_queue()
    var maxfds: int

    ghost predicate Tied()
      reads this, sessions, sessions.Repr, requestJobs, requestJobs.Repr, records, records.Repr
    {
      && this !in records.Repr && sessions !in records.Repr && requestJobs !in records.Repr
      && sessions.Repr !! records.Repr && requestJobs.Repr !! records.Repr
      && sessions.Valid() && requestJobs.Valid() && records.Valid()
    }

    // What the main thread works on, if all of it is well formed.
    ghost function Now(): Option<Held>
      reads this, sessions, sessions.Repr, requestJobs, requestJobs.Repr, records, records.Repr
    {
      if Tied() then Some(Held(sessions.Contents(), requestJobs.Contents(), records.table)) else None
    }

    // And it is what select and the lookups rely on.
    ghost predicate Sound()
      reads this, sessions, sessions.Repr, requestJobs, requestJobs.Repr, records, records.Repr
    {
      Now().Some? && Sane(listener, maxfds, Now().value.sessions)
    }

    constructor (listener: int)
      requires 0 <= listener
      ensures Sound() && Now() == Some(Held([], [], map[])) && this.listener == listener && maxfds == listener
      ensures fresh(sessions) && fresh(requestJobs) && fresh(records) && fresh(records.Repr)
    {
      this.listener := listener;
      maxfds := listener;
      sessions := new Queue();
      requestJobs := new Queue();
      records := new SessionTable();
    }

    // The queues' nodes and the records are the old ones or new.
    twostate predicate Renewed()
      reads this, sessions, requestJobs, records
    {
      && fresh(sessions.Repr - old(sessions.Repr)) && fresh(requestJobs.Repr - old(requestJobs.Repr))
      && fresh(records.Repr - old(records.Repr))
    }

    // The three states of every session are untouched.
    twostate predicate StatesKept()
      reads records, records.byId.Values
    {
      forall i :: records.StatesOf(i) == old(records.StatesOf(i))
    }

    // ------------------------------------------------------------------ one change each to what is worked on

    method AddSession(p: Peer)
      requires Now().Some?
      modifies this`maxfds, sessions, sessions.Repr
      ensures var before := old(Now()).value; Now() == Some(before.(sessions := before.sessions + [p]))
      ensures maxfds == (if p.fd > old(maxfds) then p.fd else old(maxfds)) && fresh(sessions.Repr - old(sessions.Repr))
    {
      sessions.Enqueue(p);
      if p.fd > maxfds {
        maxfds := p.fd;
      }
    }

    method AddRequest(txn: Txn)
      requires Now().Some?
      modifies requestJobs, requestJobs.Repr
      ensures var before := old(Now()).value; Now() == Some(before.(jobs := before.jobs + [txn]))
      ensures Renewed() && StatesKept()
    {
      requestJobs.Enqueue(txn);
    }

    method RemoveSession(fd: int)
      requires Now().Some?
      modifies sessions, sessions.Repr
      ensures var before := old(Now()).value;
              Now() == Some(before.(sessions := RemoveFirst(before.sessions, ByFd(fd))))
      ensures sessions.Repr == old(sessions.Repr) && StatesKept()
    {
      sessions.RemoveElem(ByFd(fd));
    }

    method TerminateSession(fd: int)
      requires Now().Some?
      modifies records, records.Repr
      ensures var before := old(Now()).value; Now() == Some(before.(table := Terminate(before.table, fd)))
      ensures fresh(records.Repr - old(records.Repr)) && StatesKept()
    {
      records.TerminateSession(fd);
      assert sessions.Valid() && requestJobs.Valid() && sessions.Contents() == old(sessions.Contents());
    }

    // The two outcomes of a request.
    method QueueRequest(fd: int, id: nat)
      requires Now().Some? && FirstMatch(Now().value.sessions, ByFd(fd)).Some?
      modifies requestJobs, requestJobs.Repr
      ensures Now() == Some(AfterRequest(old(Now()).value, fd, true, id)) && Renewed() && StatesKept()
    {
      var tmp := sessions.GetElem(ByFd(fd));
      AddRequest(Txn(id, tmp.value, false, Silent));
    }

    method EndSession(fd: int, ghost id: nat)
      requires Now().Some? && FirstMatch(Now().value.sessions, ByFd(fd)).Some?
      modifies sessions, sessions.Repr, records, records.Repr
      ensures Now() == Some(AfterRequest(old(Now()).value, fd, false, id)) && Renewed() && StatesKept()
    {
      RemoveSession(fd);
      TerminateSession(fd);
    }

    // ----------------------------------------------------------------------------------- the main thread's loop

    // accept_all_connections: endpoint.fd is -1 when accept failed
    method AcceptAllConnections(endpoint: Peer, id: nat) returns (newSessions: int)
      requires Sound() && (endpoint.fd != -1 ==> 0 <= endpoint.fd && endpoint.fd != listener)
      requires endpoint.fd != -1 ==>
                 forall p :: p in Now().value.sessions ==> p.fd != endpoint.fd && p.conn != endpoint.conn
      modifies this`maxfds, sessions, sessions.Repr, requestJobs, requestJobs.Repr
      ensures Sound() && newSessions == if endpoint.fd == -1 then 0 else 1
      ensures var before := old(Now()).value;
              Now() == Some(if endpoint.fd == -1 then before
                            else before.(sessions := before.sessions + [endpoint],
                                         jobs := before.jobs + [Txn(id, endpoint, true, Silent)]))
      ensures maxfds == if endpoint.fd > old(maxfds) then endpoint.fd else old(maxfds)
    {
      newSessions := 0;
      if endpoint.fd != -1 {
        AddEndpoint(endpoint, id);
        newSessions := newSessions + 1;
      }
    }

    // The session of a new connection, and its pseudo request.
    method AddEndpoint(endpoint: Peer, id: nat)
      requires Sound() && 0 <= endpoint.fd && endpoint.fd != listener
      requires forall p :: p in Now().value.sessions ==> p.fd != endpoint.fd && p.conn != endpoint.conn
      modifies this`maxfds, sessions, sessions.Repr, requestJobs, requestJobs.Repr
      ensures Sound() && maxfds == if endpoint.fd > old(maxfds) then endpoint.fd else old(maxfds)
      ensures var before := old(Now()).value;
              Now() == Some(before.(sessions := before.sessions + [endpoint],
                                    jobs := before.jobs + [Txn(id, endpoint, true, Silent)]))
    {
      SaneWith(listener, maxfds, Now().value.sessions, endpoint);
      AddSession(endpoint);
      AddRequest(Txn(id, endpoint, true, Silent));
    }

    // set_fd_flags: the listener and every active session
    method SetFdFlags() returns (fds: set<int>)
      requires Sound()
      ensures fds == {listener} + FdsOf(Now().value.sessions)
      ensures forall fd :: fd in fds <==> fd == listener || exists p :: p in Now().value.sessions && p.fd == fd
      ensures forall fd :: fd in fds ==> 0 <= fd <= maxfds
    {
      var activeSessions := sessions.GetAllElems();
      var n := sessions.NumElems();
      fds := SetFlags(activeSessions, n, sessions.Contents());
    }

    method SetFlags(activeSessions: array<Option<Peer>>, n: int, ghost ps: seq<Peer>) returns (fds: set<int>)
      requires n == activeSessions.Length == |ps| && forall i :: 0 <= i < n ==> activeSessions[i] == Some(ps[i])
      ensures fds == {listener} + FdsOf(ps)
    {
      fds := {listener};
      for i := 0 to n
        invariant fds == {listener} + FdsOf(ps[..i])
      {
        FdsNext(ps, i);
        fds := fds + {activeSessions[i].value.fd};
      }
      assert ps[..n] == ps;
    }

    // handle_a_client_request: delivers is false when recv returned 0
    method HandleAClientRequest(fd: int, delivers: bool, id: nat)
      requires Sound() && FirstMatch(Now().value.sessions, ByFd(fd)).Some?
      modifies sessions, sessions.Repr, requestJobs, requestJobs.Repr, records, records.Repr
      ensures Sound() && Now() == Some(AfterRequest(old(Now()).value, fd, delivers, id)) && StatesKept()
    {
      SaneWithout(listener, maxfds, Now().value.sessions, fd);
      ServeOne(fd, delivers, id);
    }

    method ServeOne(fd: int, delivers: bool, id: nat)
      requires Now().Some? && FirstMatch(Now().value.sessions, ByFd(fd)).Some?
      modifies sessions, sessions.Repr, requestJobs, requestJobs.Repr, records, records.Repr
      ensures Now() == Some(AfterRequest(old(Now()).value, fd, delivers, id)) && Renewed()
      ensures StatesKept()
    {
      if delivers {
        QueueRequest(fd, id);
      } else {
        EndSession(fd, id);
      }
    }

    method ServeReady(fd: int, delivers: bool, id: nat, ghost from: Turn, ghost to: Turn, soFar: seq<int>)
      returns (served: seq<int>)
      requires Now() == Some(from.held) && soFar == from.served && FirstMatch(from.held.sessions, ByFd(fd)).Some?
      requires to == Turn(AfterRequest(from.held, fd, delivers, id), from.served + [fd])
      modifies sessions, sessions.Repr, requestJobs, requestJobs.Repr, records, records.Repr
      ensures Now() == Some(to.held) && served == to.served && Renewed() && StatesKept()
    {
      ServeOne(fd, delivers, id);
      served := soFar + [fd];
    }

    method ServeNext(ghost turns: nat -> Turn, i: nat, ready: set<int>, data: set<int>, id: nat, soFar: seq<int>)
      returns (served: seq<int>)
      requires Now() == Some(turns(i).held) && soFar == turns(i).served && Follows(turns, i, ready, data, id)
      modifies sessions, sessions.Repr, requestJobs, requestJobs.Repr, records, records.Repr
      ensures Now() == Some(turns(i + 1).held) && served == turns(i + 1).served && Renewed()
      ensures StatesKept()
    {
      served := soFar;
      if i in ready {
        served := ServeReady(i, i in data, id + |soFar|, turns(i), turns(i + 1), soFar);
      }
    }

    method ServeAll(ghost turns: nat -> Turn, ready: set<int>, data: set<int>, id: nat)
      returns (served: seq<int>, ghost n: nat)
      requires Now() == Some(turns(0).held) && turns(0).served == [] && 0 <= maxfds
      requires forall i: nat :: Follows(turns, i, ready, data, id)
      modifies sessions, sessions.Repr, requestJobs, requestJobs.Repr, records, records.Repr
      ensures Now() == Some(turns(n).held) && served == turns(n).served && n == maxfds + 1 && StatesKept()
    {
      served := [];
      var i := 0;
      while i <= maxfds
        invariant 0 <= i <= maxfds + 1
        invariant Now() == Some(turns(i).held) && served == turns(i).served && Renewed() && StatesKept()
      {
        served := ServeNext(turns, i, ready, data, id, served);
        i := i + 1;
      }
      n := i;
    }

    method ServePass(ghost turns: nat -> Turn, ghost last: Turn, ready: set<int>, data: set<int>, id: nat)
      returns (served: seq<int>)
      requires Now() == Some(turns(0).held) && turns(0).served == [] && 0 <= maxfds && last == turns(maxfds + 1)
      requires (forall i: nat :: Follows(turns, i, ready, data, id)) && Sane(listener, maxfds, last.held.sessions)
      modifies sessions, sessions.Repr, requestJobs, requestJobs.Repr, records, records.Repr
      ensures Sound() && Now() == Some(last.held) && served == last.served && StatesKept()
    {
      ghost var n;
      served, n := ServeAll(turns, ready, data, id);
    }

    // handle_client_requests, on the descriptors that select found ready
    method HandleClientRequests(ready: set<int>, data: set<int>, id: nat) returns (served: seq<int>)
      requires Sound() && AllActive(Now().value.sessions, ready)
      modifies sessions, sessions.Repr, requestJobs, requestJobs.Repr, records, records.Repr
      ensures Sound() && TurnAt(old(Now()).value, ready, data, id, maxfds + 1) == Turn(Now().value, served)
      ensures StatesKept()
    {
      ghost var turns := PassTurns(Now().value, listener, maxfds, ready, data, id);
      served := ServePass(turns, turns(maxfds + 1), ready, data, id);
    }
  }
}
