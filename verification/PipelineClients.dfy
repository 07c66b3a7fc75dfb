/** Who gets which message.  The program identifies a connection by its descriptor alone, so what a new connection gets
    depends on what is left of earlier ones on the same descriptor: `Clear` says that nothing left can reach it. */
module PipelineClients {
  import opened Common
  import opened LinkedQueue
  import opened Pipeline
  import opened PipelineSafety

  // ----------------------------------------------------------------------------- lookups in the active sessions

  lemma {:induction false} LookupByFd(ps: seq<Peer>, fd: int)
    ensures var r := FirstMatch(ps, ByFd(fd));
            if r.Some? then r.value in ps && r.value.fd == fd else forall p :: p in ps ==> p.fd != fd
  {
    if ps != [] && ps[0].fd != fd {
      LookupByFd(ps[1..], fd);
      assert forall p :: p in ps ==> p == ps[0] || p in ps[1..];
    }
  }

  ghost predicate Distinct(ps: seq<Peer>) {
    forall i, j :: 0 <= i < j < |ps| ==> ps[i].fd != ps[j].fd && ps[i].conn != ps[j].conn
  }

  lemma {:induction false} RemoveByFd(ps: seq<Peer>, fd: int)
    requires Distinct(ps)
    ensures Distinct(RemoveFirst(ps, ByFd(fd)))
    ensures forall p :: p in RemoveFirst(ps, ByFd(fd)) <==> p in ps && p.fd != fd
  {
    if ps != [] {
      assert ps == [ps[0]] + ps[1..];
      if ps[0].fd != fd {
        RemoveByFd(ps[1..], fd);
        var r := RemoveFirst(ps[1..], ByFd(fd));
        assert forall i :: 0 <= i < |r| ==> r[i] in ps[1..];
        assert RemoveFirst(ps, ByFd(fd)) == [ps[0]] + r;
        assert forall p :: p in [ps[0]] + r <==> p == ps[0] || p in r;
      }
    }
  }

  // ------------------------------------------------------------------------------- descriptors and connections

  // Active connections have distinct descriptors and have not left; this holds in every run.
  ghost predicate ActiveKept(s: State) {
    && Distinct(s.sessions)
    && (forall p :: p in s.sessions ==> p.conn < s.nextConn && p.conn !in s.left)
    && (forall c :: c in s.left ==> c < s.nextConn)
  }

  lemma ActiveStep(s: State, step: Step)
    requires Enabled(s, step) && ActiveKept(s)
    ensures ActiveKept(Apply(s, step)) && s.left <= Apply(s, step).left
  {
    match step {
      case Accept(fd) =>
        LookupByFd(s.sessions, fd);
        assert s.sessions == Apply(s, step).sessions[..|s.sessions|];
      case Hangup(fd) =>
        LookupByFd(s.sessions, fd);
        RemoveByFd(s.sessions, fd);
      case _ =>
    }
  }

  // Every transaction on its way belongs to an active connection or to one that left; a closing descriptor is not
  // active; nothing was sent to a connection yet to come.  This too holds in every run.
  predicate Known(s: State, t: Txn) { t.peer.conn < s.nextConn && (t.peer in s.sessions || t.peer.conn in s.left) }

  ghost predicate PeersKept(s: State) {
    && ActiveKept(s)
    && (forall t :: t in Pending(s) ==> Known(s, t))
    && (s.main.Accepted? ==> s.main.peer in s.sessions)
    && (s.main.Closing? || s.main.Marking? ==> forall p :: p in s.sessions ==> p.fd != s.main.fd)
    && (forall i :: 0 <= i < |s.sent| ==> s.sent[i].to.conn < s.nextConn && s.sent[i].txn.peer.conn < s.nextConn)
  }

  // What is on its way after a step was so before, or has just arrived or been answered.
  lemma PendingFrom(s: State, step: Step, t: Txn)
    requires Enabled(s, step) && t in Pending(Apply(s, step))
    ensures t in Pending(s) || (Arrives(step) && t == Arrived(s, step)) || (step.Handle? && t == Answered(s, step))
  {
    PendingStep(s, step);
  }

  lemma KnownStep(s: State, step: Step, t: Txn)
    requires Enabled(s, step) && PeersKept(s) && t in Pending(Apply(s, step))
    ensures Known(Apply(s, step), t)
  {
    PendingFrom(s, step, t);
    if step.Handle? { WorkerInLine(s); assert s.worker.txn in Pending(s); }
    if step.Receive? || step.Hangup? { LookupByFd(s.sessions, step.fd); }
    if step.Hangup? { RemoveByFd(s.sessions, step.fd); }
  }

  lemma SentStays(s: State, step: Step)
    requires Enabled(s, step) && PeersKept(s)
    ensures forall i :: 0 <= i < |Apply(s, step).sent| ==>
              Apply(s, step).sent[i].to.conn < s.nextConn && Apply(s, step).sent[i].txn.peer.conn < s.nextConn
  {
    if step.Send? {
      assert s.responder.value in Pending(s);
      assert Known(s, s.responder.value);
      LookupByFd(s.sessions, s.responder.value.peer.fd);
    }
  }

  lemma PeersStep(s: State, step: Step)
    requires Enabled(s, step) && PeersKept(s)
    ensures PeersKept(Apply(s, step))
  {
    ActiveStep(s, step);
    SentStays(s, step);
    forall t | t in Pending(Apply(s, step)) ensures Known(Apply(s, step), t) {
      KnownStep(s, step, t);
    }
    if step.Hangup? { LookupByFd(s.sessions, step.fd); RemoveByFd(s.sessions, step.fd); }
  }

  // ------------------------------------------------------------------------------------ what is left of others

  // A transaction of another connection on p's descriptor.
  function OldOf(p: Peer): Txn -> bool { (t: Txn) => t.peer.fd == p.fd && t.peer != p }

  function OldIn(ts: seq<Txn>, p: Peer): nat { |Filter(OldOf(p), ts)| }

  lemma {:induction false} NoneOld(ts: seq<Txn>, p: Peer)
    ensures OldIn(ts, p) == 0 <==> forall t :: t in ts ==> !OldOf(p)(t)
  {
    if ts != [] {
      NoneOld(ts[1..], p);
      assert forall t :: t in ts <==> t == ts[0] || t in ts[1..];
    }
  }

  // Transactions whose cleanup is still to come.
  function Uncleaned(w: Worker): seq<Txn> { if w.Idle? || w.Cleaned? then [] else [w.txn] }
  function Unfinished(s: State): seq<Txn> { Uncleaned(s.worker) + s.requests }

  predicate Ended(s: State, fd: int) { fd in s.table && s.table[fd].terminated }

  // Nothing left of other connections on p's descriptor can reach p or take away its greeting: none of their
  // transactions is on its way out; and either the record is not terminated and the worker cleans up at most one that
  // got no reply, or it is terminated and exactly one is left, whose cleanup frees it.
  predicate Clear(s: State, p: Peer) {
    && (forall t :: t in Held(s.responder) + s.replies ==> !OldOf(p)(t))
    && (s.worker.Cleaned? && OldOf(p)(s.worker.txn) ==> s.worker.gone || s.worker.txn.reply.Silent?)
    && if Ended(s, p.fd) then OldIn(Unfinished(s), p) == 1
       else OldIn(s.requests, p) == 0 && (Uncleaned(s.worker) != [] && OldOf(p)(s.worker.txn) ==> Unanswered(s.worker))
  }

  predicate Unanswered(w: Worker) { w.Handled? && w.txn.reply.Silent? }

  // The transactions of p come behind those of others on its descriptor.
  ghost predicate InTurn(ts: seq<Txn>, p: Peer) {
    forall i, j :: 0 <= i < j < |ts| && ts[i].peer == p ==> !OldOf(p)(ts[j])
  }

  lemma InTurnChanged(ts: seq<Txn>, c: Change, p: Peer)
    requires Fits(ts, c) && InTurn(ts, p) && (c.Append? ==> !OldOf(p)(c.t))
    ensures InTurn(Changed(ts, c), p)
  {
  }

  // What arrives on an active descriptor is of its active connection.
  lemma ArrivedIsOwn(s: State, step: Step, p: Peer)
    requires Enabled(s, step) && Arrives(step) && PeersKept(s) && p in s.sessions
    ensures !OldOf(p)(Arrived(s, step))
  {
    if step.Receive? { LookupByFd(s.sessions, step.fd); }
  }

  lemma InTurnStep(s: State, step: Step, p: Peer)
    requires Enabled(s, step) && PeersKept(s) && p in s.sessions && InTurn(Pending(s), p)
    ensures InTurn(Pending(Apply(s, step)), p)
  {
    PendingStep(s, step);
    if Arrives(step) { ArrivedIsOwn(s, step, p); }
    InTurnChanged(Pending(s), ChangeOf(s, step), p);
  }

  // While p's own transaction is with the worker and until it is cleaned up, the record on p's descriptor is not
  // terminated.
  lemma OwnCleanUp(s: State, p: Peer)
    requires Uncleaned(s.worker) != [] && s.worker.txn.peer == p && InTurn(Pending(s), p) && Clear(s, p)
    ensures !Ended(s, p.fd)
  {
    WorkerInLine(s);
    forall t | t in s.requests ensures !OldOf(p)(t) {
      var k :| 0 <= k < |s.requests| && s.requests[k] == t;
      assert Pending(s)[WorkerAt(s) + 1..][k] == t;
    }
    NoneOld(s.requests, p);
    OldCons(s.worker.txn, s.requests, p);
  }

  lemma OldCons(t: Txn, ts: seq<Txn>, p: Peer)
    ensures OldIn([t] + ts, p) == OldIn(ts, p) + One(OldOf(p)(t))
    ensures [] + ts == ts
  {
    assert ([t] + ts)[1..] == ts;
  }

  lemma ClearArrives(s: State, step: Step, p: Peer)
    requires Enabled(s, step) && Arrives(step) && PeersKept(s) && p in s.sessions && Clear(s, p)
    ensures Clear(Apply(s, step), p)
  {
    var t, s' := Arrived(s, step), Apply(s, step);
    ArrivedIsOwn(s, step, p);
    FilterConcat(OldOf(p), s.requests, [t]);
    FilterConcat(OldOf(p), Unfinished(s), [t]);
    assert Unfinished(s') == Unfinished(s) + [t];
  }

  lemma ClearCleanUp(s: State, p: Peer)
    requires Enabled(s, CleanUp) && JobsExact(s) && p in s.sessions && InTurn(Pending(s), p) && Clear(s, p)
    ensures Clear(Apply(s, CleanUp), p)
  {
    if s.worker.txn.peer == p { OwnCleanUp(s, p); }
    OldCons(s.worker.txn, s.requests, p);
    assert RemoveFirst([s.worker.txn.id], IsJob(s.worker.txn.id)) == [];
  }

  lemma ClearTakeJob(s: State, p: Peer)
    requires Enabled(s, TakeJob) && Clear(s, p)
    ensures Clear(Apply(s, TakeJob), p)
  {
    var t, rest, s' := s.requests[0], s.requests[1..], Apply(s, TakeJob);
    assert s.requests == [t] + rest;
    OldCons(t, rest, p);
    assert Unfinished(s) == [t] + rest && Unfinished(s') == [t] + rest;
    assert Ended(s', p.fd) == Ended(s, p.fd) && s'.responder == s.responder && s'.replies == s.replies;
  }

  // The old transactions among the unfinished ones, with one at the worker.
  lemma UnfinishedOld(s: State, p: Peer)
    requires Uncleaned(s.worker) != []
    ensures OldIn(Unfinished(s), p) == OldIn(s.requests, p) + One(OldOf(p)(s.worker.txn))
  {
    OldCons(s.worker.txn, s.requests, p);
    assert Unfinished(s) == [s.worker.txn] + s.requests;
  }

  lemma ClearHandled(s: State, step: Step, p: Peer)
    requires Enabled(s, step) && (step.Register? || step.Handle?) && Clear(s, p)
    ensures Clear(Apply(s, step), p)
  {
    var s' := Apply(s, step);
    UnfinishedOld(s, p);
    UnfinishedOld(s', p);
    assert Ended(s', p.fd) == Ended(s, p.fd) && OldOf(p)(s'.worker.txn) == OldOf(p)(s.worker.txn);
    assert s'.responder == s.responder && s'.replies == s.replies && s'.requests == s.requests;
  }

  lemma ClearDeliver(s: State, p: Peer)
    requires Enabled(s, Deliver) && Clear(s, p)
    ensures Clear(Apply(s, Deliver), p)
  {
    var s' := Apply(s, Deliver);
    assert Unfinished(s') == Unfinished(s);
    forall t | t in Held(s'.responder) + s'.replies ensures !OldOf(p)(t) {
      assert t in Held(s.responder) + s.replies || (t == s.worker.txn && !Drops(s, Deliver));
    }
  }

  // Once clear, an active connection stays so, whatever happens.
  lemma ClearStep(s: State, step: Step, p: Peer)
    requires Enabled(s, step) && PeersKept(s) && JobsExact(s)
    requires p in s.sessions && InTurn(Pending(s), p) && Clear(s, p)
    ensures Clear(Apply(s, step), p)
  {
    if Arrives(step) {
      ClearArrives(s, step, p);
    } else if step.CleanUp? {
      ClearCleanUp(s, p);
    } else if step.TakeJob? {
      ClearTakeJob(s, p);
    } else if step.Register? || step.Handle? {
      ClearHandled(s, step, p);
    } else if step.Deliver? {
      ClearDeliver(s, p);
    } else {
      assert Unfinished(Apply(s, step)) == Unfinished(s);
    }
  }

  // ------------------------------------------------------------------------------------------- answers go right

  // Every active connection is clear; so everything sent went where it belongs.
  ghost predicate Tidy(s: State) {
    && PeersKept(s)
    && (forall p :: p in s.sessions ==> InTurn(Pending(s), p) && Clear(s, p))
    && (forall i :: 0 <= i < |s.sent| ==> s.sent[i].to == s.sent[i].txn.peer)
    && (s.worker.Cleaned? && s.worker.gone ==> s.worker.txn.peer !in s.sessions)
  }

  // The next accept on fd, if that is the step, finds the descriptor clear.
  predicate Safe(s: State, step: Step) { step.Accept? ==> Clear(s, Peer(step.fd, s.nextConn)) }

  lemma TidyPeer(s: State, step: Step, p: Peer)
    requires Enabled(s, step) && Tidy(s) && JobsExact(s) && Safe(s, step) && p in Apply(s, step).sessions
    ensures InTurn(Pending(Apply(s, step)), p) && Clear(Apply(s, step), p)
  {
    if step.Accept? && p.conn == s.nextConn {
      forall t | t in Pending(s) ensures t.peer != p { assert Known(s, t); }
    } else {
      if step.Hangup? { RemoveByFd(s.sessions, step.fd); }
      assert p in s.sessions;
      InTurnStep(s, step, p);
      ClearStep(s, step, p);
    }
  }

  lemma SendRight(s: State)
    requires Enabled(s, Send) && Tidy(s) && Active(s, s.responder.value.peer.fd)
    ensures FirstMatch(s.sessions, ByFd(s.responder.value.peer.fd)).value == s.responder.value.peer
    ensures s.responder.value.peer in s.sessions
  {
    LookupByFd(s.sessions, s.responder.value.peer.fd);
    assert s.responder.value in Held(s.responder) + s.replies;
  }

  lemma TidyStep(s: State, step: Step)
    requires Enabled(s, step) && Tidy(s) && JobsExact(s) && Safe(s, step)
    ensures Tidy(Apply(s, step))
  {
    var s' := Apply(s, step);
    PeersStep(s, step);
    forall p | p in s'.sessions ensures InTurn(Pending(s'), p) && Clear(s', p) {
      TidyPeer(s, step, p);
    }
    if step.Send? && Active(s, s.responder.value.peer.fd) { SendRight(s); }
    GoneStep(s, step);
  }

  // A cleanup on a terminated record is never one of an active connection.
  lemma GoneStep(s: State, step: Step)
    requires Enabled(s, step) && Tidy(s)
    ensures var s' := Apply(s, step); s'.worker.Cleaned? && s'.worker.gone ==> s'.worker.txn.peer !in s'.sessions
  {
    match step {
      case CleanUp => if s.worker.txn.peer in s.sessions { OwnCleanUp(s, s.worker.txn.peer); }
      case Hangup(fd) => RemoveByFd(s.sessions, fd);
      case Accept(fd) => if !s.worker.Idle? { WorkerInLine(s); assert Known(s, s.worker.txn); }
      case _ =>
    }
  }

  // -------------------------------------------------------------------------------------- the greeting comes first

  // Of the transactions of connection c, in order: is it the one made at accept time?
  function Greetings(c: nat, ts: seq<Txn>): seq<bool> {
    if ts == [] then [] else (if ts[0].peer.conn == c then [ts[0].isConnect] else []) + Greetings(c, ts[1..])
  }

  lemma {:induction false} GreetingsConcat(c: nat, a: seq<Txn>, b: seq<Txn>)
    ensures Greetings(c, a + b) == Greetings(c, a) + Greetings(c, b)
  {
    if a == [] {
      assert a + b == b;
    } else {
      assert (a + b)[0] == a[0] && (a + b)[1..] == a[1..] + b;
      GreetingsConcat(c, a[1..], b);
      var head := if a[0].peer.conn == c then [a[0].isConnect] else [];
      assert Greetings(c, a) == head + Greetings(c, a[1..]);
      assert Greetings(c, a + b) == head + (Greetings(c, a[1..]) + Greetings(c, b));
    }
  }

  lemma {:induction false} GreetingsNone(c: nat, ts: seq<Txn>)
    requires forall t :: t in ts ==> t.peer.conn != c
    ensures Greetings(c, ts) == []
  {
    if ts != [] {
      assert ts[0] in ts;
      GreetingsNone(c, ts[1..]);
    }
  }

  lemma GreetingsSplit(c: nat, ts: seq<Txn>, k: nat)
    requires k < |ts|
    ensures Greetings(c, ts) == Greetings(c, ts[..k]) + Greetings(c, [ts[k]]) + Greetings(c, ts[k + 1..])
  {
    assert ts == ts[..k] + [ts[k]] + ts[k + 1..];
    GreetingsConcat(c, ts[..k] + [ts[k]], ts[k + 1..]);
    GreetingsConcat(c, ts[..k], [ts[k]]);
  }

  ghost predicate GreetsFirst(c: nat, ts: seq<Txn>) { Greetings(c, ts) == [] || Greetings(c, ts)[0] }

  // Unless a greeting of c is deleted, whether c has transactions and whether the first one greets are unaffected.
  lemma GreetsChanged(c: nat, ts: seq<Txn>, change: Change)
    requires Fits(ts, change) && GreetsFirst(c, ts) && !change.Append?
    requires change.Delete? && ts[change.k].peer.conn == c ==> !ts[change.k].isConnect
    ensures GreetsFirst(c, Changed(ts, change))
    ensures Greetings(c, Changed(ts, change)) == [] <==> Greetings(c, ts) == []
  {
    match change {
      case Update(k, t) =>
        GreetingsSplit(c, ts, k);
        GreetingsSplit(c, ts[k := t], k);
        assert ts[k := t][..k] == ts[..k] && ts[k := t][k + 1..] == ts[k + 1..];
      case Delete(k) =>
        GreetingsSplit(c, ts, k);
        GreetingsConcat(c, ts[..k], ts[k + 1..]);
      case _ =>
    }
  }

  // The first transaction of each active connection, sent or still on its way, is the one made when it was accepted;
  // only between the two steps of an accept is there none.
  ghost predicate Greeted(s: State) {
    && (forall c :: GreetsFirst(c, Transactions(s.sent)))
    && (forall p :: p in s.sessions ==>
          GreetsFirst(p.conn, Flow(s)) && (Greetings(p.conn, Flow(s)) == [] <==> s.main == Accepted(p)))
  }

  lemma GreetedAccept(s: State, step: Step)
    requires Enabled(s, step) && Tidy(s) && Greeted(s) && step.Accept?
    ensures Greeted(Apply(s, step))
  {
    FlowStep(s, step);
    forall t | t in Flow(s) ensures t.peer.conn < s.nextConn {
      if t in Pending(s) { assert Known(s, t); }
    }
    GreetingsNone(s.nextConn, Flow(s));
  }

  lemma GreetedArrives(s: State, step: Step)
    requires Enabled(s, step) && Tidy(s) && Greeted(s) && Arrives(step)
    ensures Greeted(Apply(s, step))
  {
    var f, s', t := Flow(s), Apply(s, step), Arrived(s, step);
    FlowStep(s, step);
    forall p | p in s'.sessions
      ensures GreetsFirst(p.conn, Flow(s')) && Greetings(p.conn, Flow(s')) != []
    {
      GreetingsConcat(p.conn, f, [t]);
      if s.main == Accepted(p) {
        assert Greetings(p.conn, [t]) == [true];
      }
    }
    assert s'.main == Waiting;
  }

  // A transaction dropped from an active connection got no reply, so it is not the greeting.
  lemma DroppedIsNoGreeting(s: State, p: Peer)
    requires Tidy(s) && Labelled(s) && p in s.sessions && Drops(s, Deliver) && s.worker.txn.peer.conn == p.conn
    ensures !s.worker.txn.isConnect
  {
    WorkerInLine(s);
    assert s.worker.txn in Pending(s);
    assert Known(s, s.worker.txn);
  }

  lemma GreetedWorker(s: State, step: Step)
    requires Enabled(s, step) && Tidy(s) && Labelled(s) && Greeted(s) && (step.Handle? || step.Deliver?)
    ensures Greeted(Apply(s, step))
  {
    FlowStep(s, step);
    WorkerInLine(s);
    var s', c := Apply(s, step), FlowChange(s, step);
    forall p | p in s'.sessions
      ensures GreetsFirst(p.conn, Flow(s')) && (Greetings(p.conn, Flow(s')) == [] <==> s'.main == Accepted(p))
    {
      if Drops(s, step) && s.worker.txn.peer.conn == p.conn { DroppedIsNoGreeting(s, p); }
      assert c.Delete? ==> Flow(s)[c.k] == s.worker.txn;
      GreetsChanged(p.conn, Flow(s), c);
    }
  }

  // The responder's transaction is known, so if its descriptor is active its connection is.
  lemma ResponderKnown(s: State)
    requires Enabled(s, Send) && Tidy(s)
    ensures if Active(s, s.responder.value.peer.fd) then s.responder.value.peer in s.sessions
            else forall p :: p in s.sessions ==> p.conn != s.responder.value.peer.conn
  {
    assert s.responder.value in Pending(s);
    assert Known(s, s.responder.value);
    LookupByFd(s.sessions, s.responder.value.peer.fd);
    if Active(s, s.responder.value.peer.fd) { SendRight(s); }
  }

  lemma SentGreets(s: State, c: nat)
    requires Enabled(s, Send) && Tidy(s) && Greeted(s) && Active(s, s.responder.value.peer.fd)
    ensures GreetsFirst(c, Transactions(s.sent) + [s.responder.value])
  {
    var before, t, more := Transactions(s.sent), s.responder.value, Pending(Apply(s, Send));
    ResponderKnown(s);
    PendingSend(s);
    MoveOver(before, t, more);
    GreetingsConcat(c, before, [t]);
    GreetingsConcat(c, before + [t], more);
    assert GreetsFirst(c, before);
    if c == t.peer.conn { assert GreetsFirst(t.peer.conn, Flow(s)); }
  }

  lemma GreetedSend(s: State)
    requires Enabled(s, Send) && Tidy(s) && Greeted(s)
    ensures Greeted(Apply(s, Send))
  {
    var s' := Apply(s, Send);
    ResponderKnown(s);
    FlowStep(s, Send);
    SentStep(s, Send);
    if Active(s, s.responder.value.peer.fd) {
      forall c ensures GreetsFirst(c, Transactions(s'.sent)) {
        SentGreets(s, c);
      }
    } else {
      assert Flow(s)[|s.sent|] == Pending(s)[0] == s.responder.value;
      forall p | p in s.sessions
        ensures GreetsFirst(p.conn, Flow(s')) && (Greetings(p.conn, Flow(s')) == [] <==> s'.main == Accepted(p))
      {
        GreetsChanged(p.conn, Flow(s), Delete(|s.sent|));
      }
    }
  }

  lemma GreetedStep(s: State, step: Step)
    requires Enabled(s, step) && Tidy(s) && Labelled(s) && Greeted(s)
    ensures Greeted(Apply(s, step))
  {
    if step.Accept? {
      GreetedAccept(s, step);
    } else if Arrives(step) {
      GreetedArrives(s, step);
    } else if step.Handle? || step.Deliver? {
      GreetedWorker(s, step);
    } else if step.Send? {
      GreetedSend(s);
    } else {
      FlowStep(s, step);
      if step.Hangup? { RemoveByFd(s.sessions, step.fd); }
    }
  }
}
