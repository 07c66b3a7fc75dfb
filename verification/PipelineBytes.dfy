/** What clients read in a run of the pipeline, given the request that each transaction carried and what its handler
    decided: headers whose sequence numbers increase, and which name the requests in the order of their arrival. */
module PipelineBytes {
  import opened Common
  import opened Pipeline
  import opened PipelineSafety
  import opened PipelineRuns
  import opened Xdr
  import opened Messages

  // What ndmp_dispatch makes of a message number: 0xf001, from whomever, gets the greeting, a close gets nothing, any
  // other message a reply.
  function AnswerOf(message: int): Option<Kind> {
    match Dispatch(message)
    case AcceptNotify => Some(Notify)
    case ConnectClose => None
    case _ => Some(Reply)
  }

  lemma AnswerOfNumber(message: int, kind: Kind)
    requires AnswerOf(message) == Some(kind)
    ensures message != 0x902 && kind == if message == 0xf001 then Notify else Reply
  {
  }

  // For one transaction: the header of its request, the handler's decision and the time of the reply.  The pseudo
  // request of an accept goes by the number 0xf001.
  datatype Payload = Payload(request: Header, out: Outcome, time: int)

  predicate Numbers(t: Txn, p: Payload) { t.isConnect ==> p.request.message == 0xf001 }

  // The handlers of a run answer as dispatch says for the messages that the transactions carry; none is 0x400, whose
  // handler is empty.
  ghost predicate Dispatched(s: State, run: seq<Step>, payload: nat -> Payload)
    requires Legal(s, run)
    decreases |run|
  {
    run == [] ||
    ((run[0].Handle? ==> Numbers(s.worker.txn, payload(s.worker.txn.id)) &&
                         !Dispatch(payload(s.worker.txn.id).request.message).DataGetState? &&
                         run[0].answer == AnswerOf(payload(s.worker.txn.id).request.message)) &&
     Dispatched(Apply(s, run[0]), run[1..], payload))
  }

  // What has an answer has the one that dispatch gives its message.
  ghost predicate Fitting(t: Txn, payload: nat -> Payload) {
    t.reply.Message? ==> AnswerOf(payload(t.id).request.message) == Some(t.reply.kind)
  }

  ghost predicate AllFit(ts: seq<Txn>, payload: nat -> Payload) {
    forall i :: 0 <= i < |ts| ==> Fitting(ts[i], payload)
  }

  lemma FitChanged(ts: seq<Txn>, c: Change, payload: nat -> Payload)
    requires Fits(ts, c) && AllFit(ts, payload)
    requires c.Append? || c.Update? ==> Fitting(c.t, payload)
    ensures AllFit(Changed(ts, c), payload)
  {
  }

  lemma FitStep(s: State, step: Step, payload: nat -> Payload)
    requires Enabled(s, step) && AllFit(Flow(s), payload)
    requires step.Handle? ==> step.answer == AnswerOf(payload(s.worker.txn.id).request.message)
    ensures AllFit(Flow(Apply(s, step)), payload)
  {
    FlowStep(s, step);
    if step.Handle? {
      WorkerInLine(s);
      assert Flow(s)[|s.sent| + WorkerAt(s)] == s.worker.txn;
    }
    FitChanged(Flow(s), FlowChange(s, step), payload);
  }

  lemma {:induction false} FitAlong(s: State, run: seq<Step>, payload: nat -> Payload)
    requires Legal(s, run) && Dispatched(s, run, payload) && AllFit(Flow(s), payload)
    ensures AllFit(Flow(Exec(s, run)), payload)
    decreases |run|
  {
    if run != [] {
      FitStep(s, run[0], payload);
      FitAlong(Apply(s, run[0]), run[1..], payload);
    }
  }

  // What an answer takes to be encoded: a reply carries what the handler decided.
  predicate Carries(t: Txn, p: Payload)
    requires t.reply.Message?
  {
    && ULong.Holds(t.reply.sequence) && ULong.Holds(p.time)
    && (t.reply.kind.Reply? ==>
          p.request.Fits() && Sendable(p.request.message, p.out) &&
          (p.out.error == 0 ==> Sizeof(BodySchema(p.request.message).value, p.out.body) < TWO31 - HEADER_SIZE))
  }

  function BytesOf(t: Txn, p: Payload): seq<byte>
    requires t.reply.Message? && Carries(t, p)
  {
    match t.reply.kind
    case Notify => GreetingBytes(t.reply.sequence, p.time)
    case Reply => ReplyBytes(p.request, t.reply.sequence, p.time, p.out)
  }

  // What the client makes of it.
  function Read(t: Txn, p: Payload): Received
    requires t.reply.Message?
  {
    match t.reply.kind
    case Notify => Received(GreetingHeader(t.reply.sequence, p.time), Some(GREETING))
    case Reply =>
      Received(ReplyHeader(p.request, t.reply.sequence, p.time, p.out.error),
               if p.out.error == 0 then Some(p.out.body) else None)
  }

  lemma BytesRead(t: Txn, p: Payload)
    requires t.reply.Message? && Carries(t, p)
    ensures ClientDecode(BytesOf(t, p)) == Some(Read(t, p))
  {
    match t.reply.kind
    case Notify => GreetingReads(t.reply.sequence, p.time);
    case Reply => ClientReads(ReplyHeader(p.request, t.reply.sequence, p.time, p.out.error), p.out.body);
  }

  // Below 2^31 numbers, with handlers that answer by message number: what is sent to an accept or for 0xf001 is the
  // greeting, a close gets nothing, and for every other message the client reads a reply to its request; the sequence
  // numbers in the headers increase, and replies name their requests in arrival order.
  lemma SentBytes(run: seq<Step>, payload: nat -> Payload, i: nat)
    requires Legal(START, run) && Dispatched(START, run, payload) && Exec(START, run).nextSequence <= TWO31
    requires i < |Exec(START, run).sent|
    ensures var t := Exec(START, run).sent[i].txn;
            && t.reply.Message? && 1 <= t.reply.sequence < TWO31
            && payload(t.id).request.message != 0x902
            && t.reply.kind == (if payload(t.id).request.message == 0xf001 then Notify else Reply)
            && (Carries(t, payload(t.id)) ==>
                  ClientDecode(BytesOf(t, payload(t.id))) == Some(Read(t, payload(t.id))))
    ensures forall j :: i < j < |Exec(START, run).sent| ==>
              var t, u := Exec(START, run).sent[i].txn, Exec(START, run).sent[j].txn;
              t.id < u.id && u.reply.Message? &&
              Read(t, payload(t.id)).header.sequence < Read(u, payload(u.id)).header.sequence
  {
    var s := Exec(START, run);
    KeptFromStart(run);
    ArrivalOrder(run);
    NothingAtStart();
    FitAlong(START, run, payload);
    assert Flow(s)[i] == s.sent[i].txn;
    AnswerOfNumber(payload(s.sent[i].txn.id).request.message, s.sent[i].txn.reply.kind);
    if Carries(s.sent[i].txn, payload(s.sent[i].txn.id)) { BytesRead(s.sent[i].txn, payload(s.sent[i].txn.id)); }
    forall j | i < j < |s.sent|
      ensures s.sent[j].txn.reply.Message? && s.sent[i].txn.reply.sequence < s.sent[j].txn.reply.sequence
    {
      assert Flow(s)[j] == s.sent[j].txn;
    }
  }
}
