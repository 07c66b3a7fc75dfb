/** What every run of the pipeline keeps: order, ownership of transactions, the session job queues and sequence
    numbers.  Each step changes the line of pending transactions in one of four ways, so each invariant of the line is
    proved once per way. */
module PipelineSafety {
  import opened Common
  import opened LinkedQueue
  import opened Pipeline

  // ------------------------------------------------------------------------------------ changes of a sequence

  datatype Change = Same | Append(t: Txn) | Update(k: nat, t: Txn) | Delete(k: nat)

  predicate Fits(ts: seq<Txn>, c: Change) {
    match c
    case Update(k, t) => k < |ts| && t.id == ts[k].id && t.peer == ts[k].peer && t.isConnect == ts[k].isConnect
    case Delete(k) => k < |ts|
    case _ => true
  }

  function Changed(ts: seq<Txn>, c: Change): seq<Txn>
    requires Fits(ts, c)
  {
    match c
    case Same => ts
    case Append(t) => ts + [t]
    case Update(k, t) => ts[k := t]
    case Delete(k) => ts[..k] + ts[k + 1..]
  }

  function Shift(n: nat, c: Change): Change {
    match c
    case Update(k, t) => Update(n + k, t)
    case Delete(k) => Delete(n + k)
    case _ => c
  }

  lemma ShiftChanged(h: seq<Txn>, ts: seq<Txn>, c: Change)
    requires Fits(ts, c)
    ensures Fits(h + ts, Shift(|h|, c)) && Changed(h + ts, Shift(|h|, c)) == h + Changed(ts, c)
  {
    match c {
      case Append(t) => assert h + (ts + [t]) == h + ts + [t];
      case Update(k, t) => assert (h + ts)[|h| + k := t] == h + ts[k := t];
      case Delete(k) => ShiftDeleted(h, ts, k);
      case Same =>
    }
  }

  lemma ShiftDeleted(h: seq<Txn>, ts: seq<Txn>, k: nat)
    requires k < |ts|
    ensures (h + ts)[..|h| + k] + (h + ts)[|h| + k + 1..] == h + (ts[..k] + ts[k + 1..])
  {
    assert (h + ts)[..|h| + k] == h + ts[..k] && (h + ts)[|h| + k + 1..] == ts[k + 1..];
  }

  // -------------------------------------------------------------------------------- the line of transactions

  function Held(t: Option<Txn>): seq<Txn> { if t.Some? then [t.value] else [] }
  function InWorker(w: Worker): seq<Txn> { if w.Idle? then [] else [w.txn] }

  // Transactions on their way, nearest to the client first.
  function Pending(s: State): seq<Txn> { Held(s.responder) + s.replies + InWorker(s.worker) + s.requests }
  function WorkerAt(s: State): nat { |Held(s.responder)| + |s.replies| }

  function ChangeOf(s: State, step: Step): Change
    requires Enabled(s, step)
  {
    if Arrives(step) then Append(Arrived(s, step))
    else if step.Handle? then Update(WorkerAt(s), Answered(s, step))
    else if Drops(s, step) then Delete(WorkerAt(s))
    else if step.Send? then Delete(0)
    else Same
  }

  lemma WorkerInLine(s: State)
    requires !s.worker.Idle?
    ensures WorkerAt(s) < |Pending(s)| && Pending(s)[WorkerAt(s)] == s.worker.txn
    ensures Pending(s)[..WorkerAt(s)] == Held(s.responder) + s.replies
    ensures Pending(s)[WorkerAt(s) + 1..] == s.requests
  {
  }

  lemma UpdatedMiddle(a: seq<Txn>, t: Txn, t': Txn, b: seq<Txn>)
    ensures (a + [t] + b)[|a| := t'] == a + [t'] + b
  {
  }

  lemma PendingHandle(s: State, step: Step)
    requires Enabled(s, step) && step.Handle?
    ensures Fits(Pending(s), ChangeOf(s, step))
    ensures Pending(Apply(s, step)) == Changed(Pending(s), ChangeOf(s, step))
  {
    var ahead := Held(s.responder) + s.replies;
    UpdatedMiddle(ahead, s.worker.txn, Answered(s, step), s.requests);
    assert Pending(Apply(s, step)) == ahead + [Answered(s, step)] + s.requests;
  }

  lemma PendingDeliver(s: State)
    requires Enabled(s, Deliver)
    ensures Fits(Pending(s), ChangeOf(s, Deliver))
    ensures Pending(Apply(s, Deliver)) == Changed(Pending(s), ChangeOf(s, Deliver))
  {
    WorkerInLine(s);
    var ahead := Held(s.responder) + s.replies;
    if Drops(s, Deliver) {
      assert Pending(Apply(s, Deliver)) == ahead + s.requests;
    } else {
      assert Held(s.responder) + (s.replies + [s.worker.txn]) == ahead + [s.worker.txn];
      assert Pending(Apply(s, Deliver)) == ahead + [s.worker.txn] + s.requests;
    }
  }

  lemma PendingSend(s: State)
    requires Enabled(s, Send)
    ensures Pending(s) == [s.responder.value] + Pending(Apply(s, Send))
    ensures Changed(Pending(s), Delete(0)) == Pending(Apply(s, Send))
  {
    var rest := s.replies + InWorker(s.worker) + s.requests;
    assert Pending(s) == [s.responder.value] + rest && [] + rest == rest;
    assert Pending(Apply(s, Send)) == rest;
  }

  lemma PendingArrives(s: State, step: Step)
    requires Enabled(s, step) && Arrives(step)
    ensures Pending(Apply(s, step)) == Pending(s) + [Arrived(s, step)]
  {
    var ahead := Held(s.responder) + s.replies + InWorker(s.worker);
    assert ahead + (s.requests + [Arrived(s, step)]) == ahead + s.requests + [Arrived(s, step)];
  }

  lemma PendingMoves(s: State, step: Step)
    requires Enabled(s, step) && (step.TakeJob? || step.Fetch?)
    ensures Pending(Apply(s, step)) == Pending(s)
  {
    if step.TakeJob? {
      var ahead, t, rest := Held(s.responder) + s.replies, s.requests[0], s.requests[1..];
      assert s.requests == [t] + rest && ahead + [] == ahead;
      MoveOver(ahead, t, rest);
    } else {
      assert [s.replies[0]] + s.replies[1..] == s.replies && [] + s.replies == s.replies;
    }
  }

  // How one step changes the line: it appends, answers in place, removes one element, or leaves the line alone.
  lemma PendingStep(s: State, step: Step)
    requires Enabled(s, step)
    ensures Fits(Pending(s), ChangeOf(s, step))
    ensures Pending(Apply(s, step)) == Changed(Pending(s), ChangeOf(s, step))
  {
    match step {
      case Handle(_) => PendingHandle(s, step);
      case Deliver => PendingDeliver(s);
      case Send => PendingSend(s);
      case TakeJob => PendingMoves(s, step);
      case Fetch => PendingMoves(s, step);
      case AcceptJob => PendingArrives(s, step);
      case Receive(_) => PendingArrives(s, step);
      case _ => assert Pending(Apply(s, step)) == Pending(s);
    }
  }

  // The line with a history h before it, when the step extends the history by what it sends or not at all.
  function HistoryChange(h: seq<Txn>, h': seq<Txn>, s: State, step: Step): Change
    requires Enabled(s, step)
  {
    if step.Send? then (if h' == h then Delete(|h|) else Same) else Shift(|h|, ChangeOf(s, step))
  }

  lemma MoveOver(a: seq<Txn>, t: Txn, b: seq<Txn>)
    ensures a + ([t] + b) == a + [t] + b
  {
  }

  lemma HistoryStep(h: seq<Txn>, h': seq<Txn>, s: State, step: Step)
    requires Enabled(s, step) && (h' == h || (step.Send? && h' == h + [s.responder.value]))
    ensures Fits(h + Pending(s), HistoryChange(h, h', s, step))
    ensures h' + Pending(Apply(s, step)) == Changed(h + Pending(s), HistoryChange(h, h', s, step))
  {
    PendingStep(s, step);
    ShiftChanged(h, Pending(s), ChangeOf(s, step));
    if step.Send? && h' != h {
      PendingSend(s);
      MoveOver(h, s.responder.value, Pending(Apply(s, step)));
    }
  }

  // Finished transactions and those on their way; and all that was sent and all that is on its way.
  function Line(s: State): seq<Txn> { s.finished + Pending(s) }

  function Transactions(sent: seq<Sent>): (r: seq<Txn>)
    ensures |r| == |sent| && forall i :: 0 <= i < |r| ==> r[i] == sent[i].txn
  {
    seq(|sent|, i requires 0 <= i < |sent| => sent[i].txn)
  }

  function Flow(s: State): seq<Txn> { Transactions(s.sent) + Pending(s) }

  function LineChange(s: State, step: Step): Change
    requires Enabled(s, step)
  {
    HistoryChange(s.finished, Apply(s, step).finished, s, step)
  }

  lemma LineStep(s: State, step: Step)
    requires Enabled(s, step)
    ensures Fits(Line(s), LineChange(s, step)) && Line(Apply(s, step)) == Changed(Line(s), LineChange(s, step))
  {
    HistoryStep(s.finished, Apply(s, step).finished, s, step);
  }

  // What was sent stays; a send moves the responder's transaction there if its connection is active.
  lemma SentStep(s: State, step: Step)
    requires Enabled(s, step)
    ensures var before, after := Transactions(s.sent), Transactions(Apply(s, step).sent);
            after == if step.Send? && Active(s, s.responder.value.peer.fd)
                     then before + [s.responder.value] else before
  {
  }

  function FlowChange(s: State, step: Step): Change
    requires Enabled(s, step)
  {
    if step.Send? && Active(s, s.responder.value.peer.fd) then Same
    else if step.Send? then Delete(|s.sent|)
    else Shift(|s.sent|, ChangeOf(s, step))
  }

  lemma FlowStep(s: State, step: Step)
    requires Enabled(s, step)
    ensures Fits(Flow(s), FlowChange(s, step)) && Flow(Apply(s, step)) == Changed(Flow(s), FlowChange(s, step))
  {
    SentStep(s, step);
    HistoryStep(Transactions(s.sent), Transactions(Apply(s, step).sent), s, step);
  }

  // -------------------------------------------------------------------------------------- order (every run)

  ghost predicate Increasing(ts: seq<Txn>, bound: nat) {
    && (forall i :: 0 <= i < |ts| ==> ts[i].id < bound)
    && (forall i, j :: 0 <= i < j < |ts| ==> ts[i].id < ts[j].id)
  }

  lemma IncreasingChanged(ts: seq<Txn>, c: Change, bound: nat, bound': nat)
    requires Increasing(ts, bound) && Fits(ts, c) && bound <= bound'
    requires c.Append? ==> bound <= c.t.id < bound'
    ensures Increasing(Changed(ts, c), bound')
  {
  }

  // Finished transactions, then those on their way, are in arrival order; likewise the sent ones.
  ghost predicate Ordered(s: State) { Increasing(Line(s), s.nextId) && Increasing(Flow(s), s.nextId) }

  lemma OrderedStep(s: State, step: Step)
    requires Enabled(s, step) && Ordered(s)
    ensures Ordered(Apply(s, step))
  {
    var next := Apply(s, step).nextId;
    LineStep(s, step);
    IncreasingChanged(Line(s), LineChange(s, step), s.nextId, next);
    FlowStep(s, step);
    IncreasingChanged(Flow(s), FlowChange(s, step), s.nextId, next);
  }

  // ---------------------------------------------------------------------------------- ownership (every run)

  function One(b: bool): nat { if b then 1 else 0 }

  function Count(ts: seq<Txn>, id: nat): nat {
    if ts == [] then 0 else One(ts[0].id == id) + Count(ts[1..], id)
  }

  lemma {:induction false} CountConcat(a: seq<Txn>, b: seq<Txn>, id: nat)
    ensures Count(a + b, id) == Count(a, id) + Count(b, id)
  {
    if a == [] {
      assert a + b == b;
    } else {
      assert (a + b)[1..] == a[1..] + b;
      CountConcat(a[1..], b, id);
    }
  }

  lemma CountSplit(ts: seq<Txn>, k: nat, id: nat)
    requires k < |ts|
    ensures Count(ts, id) == Count(ts[..k], id) + One(ts[k].id == id) + Count(ts[k + 1..], id)
  {
    assert ts == ts[..k] + ([ts[k]] + ts[k + 1..]);
    CountConcat(ts[..k], [ts[k]] + ts[k + 1..], id);
  }

  lemma CountChanged(ts: seq<Txn>, c: Change, id: nat)
    requires Fits(ts, c)
    ensures Count(Changed(ts, c), id) + One(c.Delete? && ts[c.k].id == id) ==
            Count(ts, id) + One(c.Append? && c.t.id == id)
  {
    match c {
      case Same =>
      case Append(t) => CountConcat(ts, [t], id);
      case Update(k, t) =>
        CountSplit(ts, k, id);
        CountSplit(ts[k := t], k, id);
        assert ts[k := t][..k] == ts[..k] && ts[k := t][k + 1..] == ts[k + 1..];
      case Delete(k) =>
        CountSplit(ts, k, id);
        CountConcat(ts[..k], ts[k + 1..], id);
    }
  }

  // The worker freed it, or the main thread did, or the main thread is about to.
  function Aside(s: State, id: nat): nat {
    multiset(s.dropped)[id] + One((s.main.Closing? || s.main.Marking?) && s.main.id == id) + multiset(s.closed)[id]
  }

  // An allocated transaction is in exactly one place, or was freed exactly once; others are nowhere.
  ghost predicate Owned(s: State, id: nat) { Count(Line(s), id) + Aside(s, id) == One(id < s.nextId) }

  lemma AsideStep(s: State, step: Step, id: nat)
    requires Enabled(s, step)
    ensures Aside(Apply(s, step), id) ==
            Aside(s, id) + One(Drops(s, step) && s.worker.txn.id == id) + One(step.Hangup? && s.nextId == id)
  {
  }

  lemma OwnedStep(s: State, step: Step, id: nat)
    requires Enabled(s, step) && Owned(s, id)
    ensures Owned(Apply(s, step), id)
  {
    var c := LineChange(s, step);
    LineStep(s, step);
    CountChanged(Line(s), c, id);
    AsideStep(s, step, id);
    if Drops(s, step) {
      WorkerInLine(s);
      assert c == Delete(|s.finished| + WorkerAt(s)) && Line(s)[c.k] == s.worker.txn;
    }
  }

  // ------------------------------------------------------------------------- session job queues (every run)

  function JobsOf(w: Worker, fd: int): seq<nat> {
    if (w.Registered? || w.Handled?) && w.txn.peer.fd == fd then [w.txn.id] else []
  }

  // The session job queues hold exactly the transaction the worker has between registration and cleanup; and the
  // record that terminate_session holds is in the table unless it was freed.
  ghost predicate JobsExact(s: State) {
    && (forall fd :: fd in s.table ==> s.table[fd].jobs == JobsOf(s.worker, fd))
    && (s.main.Marking? && !s.main.freed ==> s.main.fd in s.table)
    && (s.worker.Registered? || s.worker.Handled? ==> s.worker.txn.peer.fd in s.table)
  }

  lemma JobsCleaned(s: State)
    requires Enabled(s, CleanUp) && JobsExact(s)
    ensures JobsExact(Apply(s, CleanUp))
  {
    var txn, s' := s.worker.txn, Apply(s, CleanUp);
    assert RemoveFirst([txn.id], IsJob(txn.id)) == [];
    forall fd | fd in s'.table ensures s'.table[fd].jobs == [] {
      assert s.table[fd].jobs == JobsOf(s.worker, fd);
    }
  }

  lemma JobsRegistered(s: State)
    requires Enabled(s, Register) && JobsExact(s)
    ensures JobsExact(Apply(s, Register))
  {
    var txn, s' := s.worker.txn, Apply(s, Register);
    forall fd | fd in s'.table ensures s'.table[fd].jobs == JobsOf(s'.worker, fd) {
      assert fd in s.table ==> s.table[fd].jobs == [];
      assert [] + [txn.id] == [txn.id];
    }
  }

  lemma JobsMarked(s: State, step: Step)
    requires Enabled(s, step) && JobsExact(s) && (step.FindClosing? || step.MarkClosed?)
    ensures JobsExact(Apply(s, step))
  {
  }

  lemma JobsStep(s: State, step: Step)
    requires Enabled(s, step) && JobsExact(s)
    ensures JobsExact(Apply(s, step))
  {
    match step {
      case Register => JobsRegistered(s);
      case CleanUp => JobsCleaned(s);
      case FindClosing => JobsMarked(s, step);
      case MarkClosed => JobsMarked(s, step);
      case _ => assert Apply(s, step).table == s.table;
    }
  }

  // A record leaves the table only in the worker's cleanup, and then its job queue is empty.
  lemma FreedWhenEmpty(s: State, step: Step, fd: int)
    requires Enabled(s, step) && JobsExact(s) && fd in s.table && fd !in Apply(s, step).table
    ensures step.CleanUp? && s.table[fd].terminated && fd == s.worker.txn.peer.fd
    ensures RemoveFirst(s.table[fd].jobs, IsJob(s.worker.txn.id)) == []
  {
  }

  // ------------------------------------------------------------------------------- sequence numbers (every run)

  ghost predicate Numbered(ts: seq<Txn>, bound: int) {
    && (forall i :: 0 <= i < |ts| && ts[i].reply.Message? ==> 1 <= ts[i].reply.sequence < bound)
    && (forall i, j :: 0 <= i < j < |ts| && ts[i].reply.Message? && ts[j].reply.Message? ==>
                       ts[i].reply.sequence < ts[j].reply.sequence)
  }

  // A new number goes to a transaction behind which none is answered.
  lemma NumberedChanged(ts: seq<Txn>, c: Change, bound: int, bound': int)
    requires Numbered(ts, bound) && Fits(ts, c) && 1 <= bound <= bound'
    requires c.Append? ==> c.t.reply.Silent?
    requires c.Update? && c.t.reply.Message? ==>
               bound <= c.t.reply.sequence < bound' && forall j :: c.k < j < |ts| ==> ts[j].reply.Silent?
    ensures Numbered(Changed(ts, c), bound')
  {
  }

  // Requests are unanswered until handled; what awaits sending or was sent carries a message, the pseudo request of
  // an accept the notification.
  ghost predicate Ready(t: Txn) { t.reply.Message? && (t.isConnect ==> t.reply.kind.Notify?) }

  ghost predicate Labelled(s: State) {
    && (forall t :: t in s.requests ==> t.reply.Silent?)
    && (s.worker.Taken? || s.worker.Registered? ==> s.worker.txn.reply.Silent?)
    && (s.worker.Handled? || s.worker.Cleaned? ==> s.worker.txn.isConnect ==> Ready(s.worker.txn))
    && (s.responder.Some? ==> Ready(s.responder.value))
    && (forall t :: t in s.replies ==> Ready(t))
    && (forall i :: 0 <= i < |s.sent| ==> Ready(s.sent[i].txn))
  }

  ghost predicate Sequenced(s: State) {
    Labelled(s) && 1 <= s.nextSequence && Numbered(Flow(s), s.nextSequence)
  }

  lemma LabelledStep(s: State, step: Step)
    requires Enabled(s, step) && Labelled(s)
    ensures Labelled(Apply(s, step))
  {
  }

  lemma SilentBehindWorker(s: State, k: nat)
    requires Labelled(s) && !s.worker.Idle? && |s.sent| + WorkerAt(s) < k < |Flow(s)|
    ensures Flow(s)[k].reply.Silent?
  {
    WorkerInLine(s);
    assert Flow(s)[k] == Pending(s)[WorkerAt(s) + 1..][k - |s.sent| - WorkerAt(s) - 1];
  }

  // What is answered is numbered next, and nothing behind it is answered.
  lemma AnsweredLast(s: State, step: Step)
    requires Enabled(s, step) && Sequenced(s) && step.Handle?
    ensures var c := FlowChange(s, step);
            c == Update(|s.sent| + WorkerAt(s), Answered(s, step)) &&
            forall j :: c.k < j < |Flow(s)| ==> Flow(s)[j].reply.Silent?
  {
    forall j | |s.sent| + WorkerAt(s) < j < |Flow(s)| ensures Flow(s)[j].reply.Silent? {
      SilentBehindWorker(s, j);
    }
  }

  lemma NumberedStep(s: State, step: Step)
    requires Enabled(s, step) && Sequenced(s)
    ensures Numbered(Flow(Apply(s, step)), Apply(s, step).nextSequence)
  {
    FlowStep(s, step);
    if step.Handle? { AnsweredLast(s, step); }
    NumberedChanged(Flow(s), FlowChange(s, step), s.nextSequence, Apply(s, step).nextSequence);
  }

  lemma SequencedStep(s: State, step: Step)
    requires Enabled(s, step) && Sequenced(s)
    ensures Sequenced(Apply(s, step))
  {
    LabelledStep(s, step);
    NumberedStep(s, step);
  }
}
