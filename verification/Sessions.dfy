/** The session records of `ndmp_msg.c`: ndmp_session_info objects in a linked queue, found by descriptor. */
module Sessions {
  import opened Common
  import opened LinkedQueue
  import opened Pipeline
  import DataStates

  class SessionInfo {
    const sessionId: int
    var connectionState: int
    var dataState: int
    var moverState: int
    var jobs: seq<nat>         // outstanding transactions
    var isTerminated: bool

    function States(): DataStates.States
      reads this
    {
      DataStates.States(connectionState, dataState, moverState)
    }

    constructor (sessionId: int)
      ensures this.sessionId == sessionId && States() == DataStates.UNUSED && jobs == [] && !isTerminated
    {
      this.sessionId := sessionId;
      connectionState, dataState, moverState := DataStates.CONN_LISTEN, DataStates.IDLE, DataStates.IDLE;
      jobs, isTerminated := [], false;
    }
  }

  function ById(id: int): SessionInfo -> bool { (info: SessionInfo) => info.sessionId == id }

  // The map finds exactly the records of the sequence by their descriptors, which are distinct.
  ghost predicate Index(infos: seq<SessionInfo>, byId: map<int, SessionInfo>) {
    && (forall i, j :: 0 <= i < j < |infos| ==> infos[i].sessionId != infos[j].sessionId)
    && (forall i :: 0 <= i < |infos| ==> infos[i].sessionId in byId && byId[infos[i].sessionId] == infos[i])
    && (forall id :: id in byId ==> byId[id] in infos && byId[id].sessionId == id)
  }

  lemma IndexAppend(infos: seq<SessionInfo>, byId: map<int, SessionInfo>, info: SessionInfo)
    requires Index(infos, byId) && info.sessionId !in byId
    ensures Index(infos + [info], byId[info.sessionId := info])
  {
    assert (infos + [info])[|infos|] == info;
  }

  lemma IndexRemove(infos: seq<SessionInfo>, byId: map<int, SessionInfo>, id: int)
    requires Index(infos, byId)
    ensures Index(RemoveFirst(infos, ById(id)), byId - {id})
  {
    RemoveById(infos, id);
  }

  class SessionTable {
    const queue: Queue<SessionInfo>
    ghost var byId: map<int, SessionInfo>     // the records in the queue
    ghost var table: map<int, Info>           // what the pipeline sees of them
    ghost var Repr: set<object>

    ghost predicate Tied()
      reads this, Repr
    {
      && this !in Repr && queue in Repr && queue.Repr <= Repr
      && (forall id :: id in byId ==> byId[id] in Repr)
      && queue.Valid() && Index(queue.Contents(), byId) && table.Keys == byId.Keys
      && forall id :: id in byId ==> table[id] == Info(byId[id].jobs, byId[id].isTerminated)
    }

    // What the heap holds, if it is a table of records at all.
    ghost function Meaning(): Option<map<int, Info>>
      reads this, Repr
    {
      if Tied() then Some(table) else None
    }

    ghost predicate Valid()
      reads this, Repr
    {
      Meaning().Some?
    }

    constructor ()
      ensures Valid() && table == map[] && byId == map[] && fresh(Repr)
    {
      queue := new Queue();
      byId, table, Repr := map[], map[], {queue};
    }

    // Records stay the same objects, and the rest of the representation is its own or new.
    twostate predicate Grows()
      reads this
    {
      fresh(Repr - old(Repr)) && forall i :: i in byId && i in old(byId) ==> byId[i] == old(byId)[i]
    }

    // The states of a session: those of its record, or of a new one if it has none.
    ghost function StatesOf(id: int): DataStates.States
      reads this, byId.Values
    {
      if id in byId then byId[id].States() else DataStates.UNUSED
    }

    // A handler that writes the states of one record leaves the table, and the states of the others.
    twostate lemma StatesOnly(session: SessionInfo)
      requires old(Valid()) && unchanged(this) && unchanged(Repr - {session})
      requires session.jobs == old(session.jobs) && session.isTerminated == old(session.isTerminated)
      ensures Valid() && forall i :: i != session.sessionId ==> StatesOf(i) == old(StatesOf(i))
    {
      assert unchanged(queue) && unchanged(queue.Repr);
    }

    // get_session_info
    method GetSessionInfo(id: int) returns (info: SessionInfo)
      requires Valid()
      modifies this, Repr
      ensures Valid() && Grows() && table == Ensure(old(table), id)
      ensures id in byId && byId[id] == info && info.sessionId == id
      ensures id in old(byId) ==> byId == old(byId)
      ensures id !in old(byId) ==> fresh(info)
      ensures forall i :: StatesOf(i) == old(StatesOf(i))
    {
      LookupById(queue.Contents(), id);
      var found := queue.GetElem(ById(id));
      if found.Some? {
        return found.value;
      }
      info := Create(id);
    }

    method Create(id: int) returns (info: SessionInfo)
      requires Valid() && id !in byId
      modifies this, Repr
      ensures Valid() && byId == old(byId)[id := info] && table == old(table)[id := FRESH]
      ensures fresh(info) && info.sessionId == id && fresh(Repr - old(Repr))
      ensures forall i :: StatesOf(i) == old(StatesOf(i))
    {
      info := new SessionInfo(id);
      Enlist(info);
    }

    method Enlist(info: SessionInfo)
      requires Valid() && info.sessionId !in byId && info.jobs == [] && !info.isTerminated
      requires info.States() == DataStates.UNUSED
      modifies this, queue, queue.Repr
      ensures Valid() && byId == old(byId)[info.sessionId := info]
      ensures forall i :: StatesOf(i) == old(StatesOf(i))
      ensures table == old(table)[info.sessionId := FRESH] && fresh(Repr - old(Repr) - {info})
    {
      IndexAppend(queue.Contents(), byId, info);
      Append(info);
      Reindex(byId[info.sessionId := info], table[info.sessionId := FRESH]);
    }

    method Append(info: SessionInfo)
      requires Valid()
      modifies this`Repr, queue, queue.Repr
      ensures queue.Valid() && queue.Contents() == old(queue.Contents()) + [info]
      ensures byId == old(byId) && table == old(table)
      ensures fresh(Repr - old(Repr) - {info}) && old(Repr) + {info} <= Repr && this !in Repr - {info}
      ensures queue.Repr <= Repr
    {
      queue.Enqueue(info);
      Repr := Repr + {info} + queue.Repr;
    }

    ghost method Reindex(index: map<int, SessionInfo>, records: map<int, Info>)
      requires queue.Valid() && Index(queue.Contents(), index) && records.Keys == index.Keys
      requires forall id :: id in index ==> records[id] == Info(index[id].jobs, index[id].isTerminated)
      requires queue in Repr && this !in Repr && queue.Repr <= Repr
      requires forall id :: id in index ==> index[id] in Repr
      modifies this
      ensures Valid() && byId == index && table == records && Repr == old(Repr)
    {
      byId, table := index, records;
    }

    method SetJobs(session: SessionInfo, jobs: seq<nat>)
      requires Valid() && session.sessionId in byId && byId[session.sessionId] == session
      modifies this`table, session`jobs
      ensures Valid() && session.jobs == jobs && forall i :: StatesOf(i) == old(StatesOf(i))
      ensures table == old(table)[session.sessionId := Info(jobs, session.isTerminated)]
    {
      session.jobs := jobs;
      table := table[session.sessionId := Info(jobs, session.isTerminated)];
    }

    // add_job_to_session
    method AddJobToSession(id: int, job: nat)
      requires Valid()
      modifies this, Repr
      ensures Valid() && Grows() && table == AddJob(old(table), id, job)
      ensures id in byId && forall i :: StatesOf(i) == old(StatesOf(i))
    {
      var session := GetSessionInfo(id);
      SetJobs(session, session.jobs + [job]);
    }

    // cleanup_session: true when the session was terminated
    method CleanupSession(id: int, job: nat) returns (gone: bool)
      requires Valid()
      modifies this, Repr
      ensures Valid() && Grows() && (table, gone) == Cleanup(old(table), id, job)
      ensures forall i :: i != id || id in byId ==> StatesOf(i) == old(StatesOf(i))
    {
      var session := GetSessionInfo(id);
      SetJobs(session, RemoveFirst(session.jobs, IsJob(job)));
      gone := session.isTerminated;
      if gone && session.jobs == [] {
        Delist(session);
      }
    }

    method Delist(session: SessionInfo)
      requires Valid() && session.sessionId in byId && byId[session.sessionId] == session
      modifies this, queue, queue.Repr
      ensures Valid() && byId == old(byId) - {session.sessionId} && table == old(table) - {session.sessionId}
      ensures Repr == old(Repr) && forall i :: i != session.sessionId ==> StatesOf(i) == old(StatesOf(i))
    {
      Detach(session.sessionId);
      Reindex(byId - {session.sessionId}, table - {session.sessionId});
    }

    method Detach(id: int)
      requires Valid()
      modifies queue, queue.Repr
      ensures queue.Valid() && Index(queue.Contents(), byId - {id}) && queue.Repr <= Repr
      ensures forall i :: StatesOf(i) == old(StatesOf(i))
      ensures forall i :: i in byId ==>
                byId[i].jobs == old(byId[i].jobs) && byId[i].isTerminated == old(byId[i].isTerminated)
    {
      IndexRemove(queue.Contents(), byId, id);
      queue.RemoveElem(ById(id));
    }

    // the second half of terminate_session, on the record that its first half looked up
    method MarkTerminated(session: SessionInfo)
      requires Valid() && session.sessionId in byId && byId[session.sessionId] == session
      modifies this`table, session`isTerminated
      ensures Valid() && forall i :: StatesOf(i) == old(StatesOf(i))
      ensures table == Mark(old(table), session.sessionId)
    {
      session.isTerminated := true;
      table := table[session.sessionId := Info(session.jobs, true)];
    }

    // terminate_session, undisturbed
    method TerminateSession(id: int)
      requires Valid()
      modifies this, Repr
      ensures Valid() && Grows() && table == Terminate(old(table), id)
      ensures forall i :: StatesOf(i) == old(StatesOf(i))
    {
      var session := GetSessionInfo(id);
      MarkTerminated(session);
    }
  }

  lemma {:induction false} LookupById(infos: seq<SessionInfo>, id: int)
    ensures var r := FirstMatch(infos, ById(id));
            if r.Some? then r.value in infos && r.value.sessionId == id
            else forall info :: info in infos ==> info.sessionId != id
  {
    if infos != [] && infos[0].sessionId != id {
      LookupById(infos[1..], id);
      assert forall info :: info in infos ==> info == infos[0] || info in infos[1..];
    }
  }

  lemma RemoveById(infos: seq<SessionInfo>, id: int)
    requires forall i, j :: 0 <= i < j < |infos| ==> infos[i].sessionId != infos[j].sessionId
    ensures var r := RemoveFirst(infos, ById(id));
            (forall i, j :: 0 <= i < j < |r| ==> r[i].sessionId != r[j].sessionId) &&
            (forall i :: 0 <= i < |r| ==> r[i] in infos && r[i].sessionId != id) &&
            (forall i :: 0 <= i < |infos| && infos[i].sessionId != id ==> infos[i] in r)
  {
    var r := RemoveFirst(infos, ById(id));
    var k := RemovedAt(infos, ById(id));
    assert forall i :: 0 <= i < |r| ==> r[i] == infos[if i < k then i else i + 1];
    forall i | 0 <= i < |infos| && infos[i].sessionId != id ensures infos[i] in r {
      assert infos[i] == r[if i < k then i else i - 1];
    }
  }
}
