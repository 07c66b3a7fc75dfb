# Verified model of the glfs-ndmp server

This Dafny project models the NDMP v3 backup server and proves what it relies on.  It covers five pieces that form one
request path, and one parser beside it:

* the **pipeline** of three threads - the main thread that accepts, receives and closes; the one worker that takes a
  request, registers it with its session, handles it and cleans up; the responder that sends or drops
  (`Pipeline`, `PipelineSafety`, `PipelineClients`, `PipelineBreaks`, `PipelineRuns`, `PipelineRecords`,
  `PipelineBytes`, `PipelineReuse`, `PipelineInheritance`), with the methods that work on its state (`Comm`,
  `MainThread`, `Worker`, `Threads`, `Sessions`);
* the **linked queue** that everything above is kept in (`LinkedQueue`);
* the **wire format**: XDR (RFC 4506) for any schema built from the constructs of `ndmp.x`, record marking (section 11
  of RFC 5531), headers, dispatch, replies and their sizes (`Xdr`, `RecordMark`, `Messages`, `Replies`), and what stands
  at which byte (`WireLayout`);
* the **requests**: one from bytes to bytes (`NdmpServer`), what each message number does, with its numbers and states
  written out (`Protocol`), and any list of them (`ServiceRuns`, `BackupRuns`);
* the **data service** and its volume file (`DataStates`, `DataService`, `TextTokens`, `VolumeFile`, `Volumes`);
* the **parser** of one line of /proc/scsi/scsi (`ScsiLine`).

## How to read it

The pipeline is a step machine: `Pipeline.Enabled` says which step each thread may take, `Pipeline.Apply` what it does,
and a run is any legal sequence of steps, so every interleaving is covered.  Every step changes the line of pending
transactions in one of four ways (`PipelineSafety.PendingStep`); order, ownership and numbering are proved once per way.
The classes of `Sessions` and `Comm` work on heap objects.  The contracts of `Sessions` equate its records with the
functions that the step machine uses (`Ensure`, `AddJob`, `Mark`, `Cleanup`); those of `Comm` equate a pass of the main
thread with `TurnAt`, and `MainThread` shows that an accept, a request and a whole pass are runs of the machine.
`Worker.JobIsRun` shows the same of a worker turn, and `Threads` takes that turn from request bytes to reply bytes on
the heap session table.  The contract of a turn says what every later turn finds (`Threads.Held`), so turns chain:
`ServiceRuns` proves what holds over any list of them, in terms of the bytes that clients send and read.

The conditions under which something can go wrong are exact: `PipelineBreaks` builds, from any state that violates one,
a run in which it does go wrong.  That run is one of the worker and the responder; only for a lost greeting does the
main thread also finish its accept and receive one request.  No further connection is accepted in any of them.

The data service is a machine over numbered requests of any sessions (`DataStates`); the handlers of `DataService` are
proved to make exactly its transitions, and `NdmpServer.XdrDecodeEncode` joins them with decoding, dispatch, encoding
and framing.

## What is assumed

* There is one worker, as `comm/src/worker.h:21` sets.
* `get_session_info` is one step, although each call creates a fresh lock; so is each queue operation, a close together
  with the removal from the active sessions, and the responder's membership test together with the send.
* A transaction carries the identity of its connection (`Peer.conn`), which the program does not have; no step's effect
  depends on it.  It is what lets a theorem speak of the right client.
* `cleanup_session` and each half of `terminate_session` (finding the record, setting its flag) are one step each; the
  worker may run between the two halves.  If it frees the record there, the source writes to freed memory; in the model
  that write changes no record.  What holds in every run is stated under this reading, and `PipelineRecords.DanglesIff`
  says exactly when it is needed.
* The program does not keep descriptors from being reused while something of a former connection is left.  Order,
  ownership, job queues, sequence numbers and silence after a close hold in every run all the same.  Who gets which
  message is decided at each accept: `PipelineRuns.SafeIff` gives the exact condition on the state, and a run without
  reuse meets it throughout (`PipelineRuns.NoReuseFromStart`).
* Sockets, `select`, clocks, operator answers, the results of `mount` and `rsync`, host and file system data, and what
  uninitialised buffers hold (`junk`, `unset`) are inputs.  The operator's answers are words, as `scanf` reads them; a
  request is at most MAX_MESSAGE_SIZE bytes, as `recv` delivers it.  What a START_BACKUP request holds before decoding is
  at most the source's 8 pairs of 64 bytes (`ndmp/src/ndmp_data.c:249-260`).

## What the code does that its own description does not say

* `data_state` is declared with `enum ndmp_state` (`ndmp/src/ndmp_msg.h:25`) and used with `ndmp_data_state`
  (`ndmp/src/ndmp.x:767-774`).  The HALTED that CONNECT_CLOSE writes is the CONNECTED that a start asks for, so a close
  alone lets a start through.  `DataStates.StartableIff` is the exact condition, `DataStates.CloseThenStart` the run.
* A refused start still scans its environment, replaces the server's environment, may record a volume, runs the copy and
  ends in HALTED.
* The guard of GET_ENV is always true, so it answers in every state.
* With descriptor reuse a new connection can lose its NOTIFY_CONNECTED (`PipelineReuse.ReuseLosesGreeting`), get a reply
  that was meant for a former one (`PipelineReuse.ReuseMisdirects`), or have terminate_session write to a freed record
  (`PipelineReuse.ReuseDangles`).  Even after a safe accept it works on a former connection's record when that was left
  unterminated, with the states it was left in (`PipelineInheritance.InheritsIff`): one that was left by a CONNECT_CLOSE
  lets the new connection start without a connect.
* Backup takes the first record with a key and recover the last.  They agree as long as keys stay unique, but the path
  and the user of a request are written to the file as they are, and white space in them is read back as further
  fields.  A backup keeps the file good exactly when its line is read as whole records with new keys
  (`Volumes.KeepsFormIff`); `Volumes.SecondRedirectsFirst` is a second client's backup after which the first client's
  recovers read from another volume than its backups go to, and `Volumes.RecoverKeptIff` says exactly when that happens.
  A path with white space in it is never read back under its own key (`Volumes.RecordedIffWord`).
* The worker frees dropped transactions while older replies may still be queued, so the ordered line consists of the
  transactions that the responder finished, then those still pending.
* The SCSI parser accepts exactly the lines of a grammar (`ScsiLine.ParseIff`); on other lines the source reads through a
  null pointer or before its value buffer.

## Model

| member | source | states |
|---|---|---|
| PipelineRuns.ArrivalOrder | comm/src/worker.c:52-122 | In every run, finished transactions, then the responder's, the reply queue's, the worker's and the request queue's are in arrival order, and so is everything sent: replies in request order, at most one each |
| PipelineRuns.OneOwner | ndmp/src/ndmp_msg.c:64-90 | In every run each transaction allocated so far is in exactly one place, or was freed exactly once by the responder, the worker or the main thread; no other is anywhere |
| PipelineRuns.JobQueues | ndmp/src/ndmp_msg.c:295-337 | In every run the job queues of all records together hold exactly the transaction the worker has registered and not cleaned up; a record is freed only in a cleanup that empties its queue |
| PipelineRuns.SequenceIncreases | ndmp/src/ndmp_msg.c:190-206 | Below 2^31 numbers, sequence words strictly increase along everything sent, although numbered replies may be dropped |
| PipelineRuns.NothingAfterLeaving | comm/src/comm.c:284-299 | Once a connection has left the active sessions, no continuation sends anything more to it |
| PipelineRuns.NothingAfterLeavingRun | comm/src/worker.c:103-115 | The same from the initial state, for every run and every continuation |
| PipelineRuns.SafeIff | comm/src/comm.c:217-250 | In every run whose accepts so far were safe, the next accept is safe exactly when, whatever follows with safe accepts, every message answers its own connection and every connection is greeted first; from an unsafe one a run without further accepts breaks this |
| PipelineRuns.RightClient | comm/src/worker.c:107-111 | When every accept finds its descriptor clear, every message goes to the connection whose transaction it answers |
| PipelineRuns.NotifyFirst | comm/src/comm.c:243-250 | When every accept finds its descriptor clear, the first message sent on any connection is the NOTIFY_CONNECTED of its accept |
| PipelineRecords.DanglesIff | ndmp/src/ndmp_msg.c:351-357 | In every run, when terminate_session is entered: the record it finds can be freed before it is marked exactly when it was terminated before and a transaction on the descriptor is still to be cleaned up |
| PipelineRecords.MarkedRecord | ndmp/src/ndmp_msg.c:351-357 | In every run the record being marked is in the table unless it was freed in that way |
| PipelineRuns.NoReuseIsSafe | comm/src/comm.c:217-227 | From any state reached without reuse, a run that accepts no descriptor twice is safe, and no record is freed before it is marked |
| PipelineRuns.NoReuseFromStart | comm/src/comm.c:217-227 | The same from the initial state, and every message reaches the right connection |
| PipelineReuse.ReuseLosesGreeting | ndmp/src/ndmp_msg.c:316-337 | A run with descriptor reuse in which the second connection's first message is not its greeting |
| PipelineReuse.ReuseMisdirects | comm/src/worker.c:107-111 | A run with descriptor reuse in which a reply goes to another connection than the one it answers |
| PipelineReuse.ReuseDangles | ndmp/src/ndmp_msg.c:351-357 | A run with descriptor reuse in which terminate_session holds a record that was freed |
| PipelineInheritance.InheritsIff | ndmp/src/ndmp_msg.c:295-337 | After an accept that is safe: a handler works for the new connection on a record that was there before exactly when that record was not terminated at the accept; otherwise there was a moment without a record and with nothing left of other connections, before that handler |
| PipelineInheritance.InheritanceHappens | ndmp/src/ndmp_msg.c:323-333 | Two requests left at a close: cleaning up the first frees the record, the second makes one that is never terminated, and the next accept on the descriptor is safe and inherits it |
| PipelineBytes.SentBytes | ndmp/src/ndmp_msg.c:190-206 | In every run below 2^31 numbers whose handlers answer by message number (none 0x400): what is sent to an accept or for a client's 0xf001 is the greeting, for a close nothing, for any other message a reply; where the answer can be encoded, the client decodes the greeting, or the header, error and body of the request the transaction carried; sequence numbers in the headers increase and replies name their requests in arrival order |
| PipelineSafety.PendingStep | comm/src/worker.c:52-122 | Each step appends to the line of pending transactions, answers one in place, removes one, or leaves it alone |
| PipelineSafety.LineStep | comm/src/worker.c:91-122 | The same for the line that starts with the finished transactions |
| PipelineSafety.OrderedStep | comm/src/worker.c:52-122 | Every step keeps arrival order of the finished-then-pending and of the sent-then-pending line |
| PipelineSafety.OwnedStep | ndmp/src/ndmp_msg.c:64-90 | Every step keeps each transaction in one place or freed once |
| PipelineSafety.JobsStep | ndmp/src/ndmp_msg.c:295-337 | Every step keeps the job queues equal to what the worker has registered |
| PipelineSafety.FreedWhenEmpty | ndmp/src/ndmp_msg.c:323-333 | A record leaves the table only in a cleanup of a terminated session, with its job queue then empty |
| PipelineSafety.SequencedStep | ndmp/src/ndmp_msg.c:190-206 | Every step keeps sequence numbers increasing along the sent and pending transactions |
| PipelineClients.ActiveStep | comm/src/comm.c:217-227 | Every step keeps active descriptors distinct and active connections not yet left |
| PipelineClients.PeersStep | comm/src/comm.c:217-299 | Every step keeps pending transactions tied to an active connection or one that left, and a closing descriptor inactive |
| PipelineClients.ClearStep | ndmp/src/ndmp_msg.c:316-337 | Once clear of what other connections on its descriptor left, an active connection stays clear through every step |
| PipelineClients.TidyStep | comm/src/comm.c:284-299 | Every step with a safe accept keeps all active connections clear and everything sent at its own connection |
| PipelineBreaks.Breaks | ndmp/src/ndmp_msg.c:316-337 | From a new connection that is not clear, a run without another accept misdirects a message or loses the greeting |
| PipelineBreaks.FreeRecord | ndmp/src/ndmp_msg.c:323-333 | The worker alone can always reach and drop the first transaction on a terminated descriptor, and with it frees the record |
| PipelineClients.GreetedStep | comm/src/comm.c:243-250 | While active connections are clear, every step keeps the accept's transaction first among what is sent and pending for a connection |
| Sessions.SessionTable.GetSessionInfo | ndmp/src/ndmp_msg.c:229-278 | On the heap: returns the one record of the descriptor, creating it in LISTEN, IDLE and IDLE with no jobs when there is none; records of all others, and the states found on any descriptor, stay |
| Sessions.SessionTable.AddJobToSession | ndmp/src/ndmp_msg.c:295-301 | On the heap: the record table changes as the pipeline's AddJob, and the states found on any descriptor stay |
| Sessions.SessionTable.CleanupSession | ndmp/src/ndmp_msg.c:316-337 | On the heap: the table and the verdict are the pipeline's Cleanup, unlinking a terminated record without jobs; the states found on any other descriptor, and on this one while its record is kept, stay |
| Sessions.SessionTable.MarkTerminated | ndmp/src/ndmp_msg.c:356 | On the heap: the found record's flag is set as the pipeline's Mark; the states found on any descriptor, and all other records, stay |
| Sessions.SessionTable.TerminateSession | ndmp/src/ndmp_msg.c:351-357 | On the heap, undisturbed: the table changes as the pipeline's Terminate and the states found on any descriptor stay |
| Sessions.LookupById | ndmp/src/ndmp_msg.c:280-287 | First match by session id finds a record of that id, or there is none |
| Sessions.RemoveById | ndmp/src/ndmp_msg.c:329-331 | Removing by id keeps ids distinct and removes exactly the records of that id |
| Worker.JobIsRun | comm/src/worker.c:62-82 | The worker's turn is the legal run of its five steps and ends in AfterJob |
| Threads.Threads.RunJob | comm/src/worker.c:52-89 | One turn of the worker loop from request bytes to reply bytes, on the heap session table and data service: the pipeline's AfterJob with the answer that the message number decides; the states of the job's own record if it is kept, those of every other record unchanged, the environment, volume file and counter; and what a client decodes from the queued reply |
| Threads.Threads.XdrDecodeEncode | ndmp/src/ndmp_msg.c:28-91 | Registering, the handler of the request's message on the session's own record, and cleaning up: the table and verdict, the transaction and its sequence number, the three states of the own record and of all others, the environment and volume file, and the reply's header and body |
| Threads.AnswerForetold | ndmp/src/ndmp_msg.c:93-137 | Whatever the handler finds, the kind of answer follows from the message number, and with one goes the counter's number; which kind is said by ServiceRuns.AnswerByNumber |
| Threads.RoomKept | ndmp/src/ndmp_data.c:283-291 | The environment that a request leaves has room in a later GET_ENV reply |
| ServiceRuns.RunTurn | comm/src/worker.c:52-89 | On the heap: a turn of the worker takes the states of all records, the environment, the volume file and the counter from one service to the next, and drops the states of the job's record exactly when its cleanup frees it |
| ServiceRuns.DataOfBytes | ndmp/src/ndmp_data.c:117-131 | After any list of worker turns from the start, the data states on all descriptors and the environment are those of the data machine on the events read from the bytes of the requests and the freed records |
| ServiceRuns.GetEnvReads | ndmp/src/ndmp_data.c:844-870 | In any list of worker turns, from any state: the body that the client of a 0x404 decodes is the pairs in the bytes of the latest 0x401 of any session, refused or not, or no pairs when the client of a later 0x407 read error 0 |
| ServiceRuns.OpensIff | ndmp/src/ndmp_connect.c:66-90 | On one record from when it is unused, in any list of worker turns: a 0x900 succeeds exactly when its version is at most 3, no earlier 0x900 succeeded and no 0x902 was handled; so at most once, and never after a close |
| ServiceRuns.AnswerByNumber | ndmp/src/ndmp_msg.c:93-137 | A pseudo request and a client's 0xf001 get a notification, 0x902 no answer, every other number a reply |
| ServiceRuns.EventOfNumber | ndmp/src/ndmp_msg.c:118-133 | Which event of the data machine a request is, by the message number in its bytes, both ways |
| ServiceRuns.ListenArg | ndmp/src/ndmp_data.c:99-126 | The address type of a 0x409 is its only argument |
| ServiceRuns.ConnectArg | ndmp/src/ndmp_data.c:176-192 | The address type of a 0x40A is the tag of its only argument |
| ServiceRuns.BackupArg | ndmp/src/ndmp_data.c:262-291 | The environment of a 0x401 is the pairs of its second argument |
| ServiceRuns.AfterStart | ndmp/src/ndmp_data.c:784-791 | After a 0x401 or 0x402, whatever its client read, the next request on the same record: 0x407 succeeds, leaves IDLE and clears the environment; 0x403 is refused with error 19 and leaves HALTED |
| ServiceRuns.AfterListen | ndmp/src/ndmp_data.c:117-131 | A 0x409 for a local address on an idle record succeeds and leaves LISTEN; the next request on the record reads error 19 if it is a 0x40A, 0x401 or 0x402 |
| ServiceRuns.AfterConnect | ndmp/src/ndmp_data.c:185-197 | A 0x40A for a local address on an idle record succeeds and leaves CONNECTED; the next start on the record succeeds exactly when its commands do |
| ServiceRuns.StartAnswered | ndmp/src/ndmp_data.c:266-500 | What the client of a start reads, in any state: success exactly on a connected record with a successful rsync and, for a backup, a volume that is recorded or mounted |
| ServiceRuns.UnusedStates | ndmp/src/ndmp_msg.c:229-278 | A descriptor without a record is found in connection state 1, data state 0 and mover state 0 |
| BackupRuns.PairsFound | ndmp/src/ndmp_data.c:262-291 | Pairs of one-byte strings that a client encodes, name first, are the pairs the server finds |
| BackupRuns.NameFound | ndmp/src/ndmp_data.c:645-663 | The first name that a client encodes gives the original path and then the destination |
| BackupRuns.LastPairsCount | ndmp/src/ndmp_data.c:299-317 | The path and the user of a start are the values of the last pairs named FILESYSTEM and USER |
| BackupRuns.BackupRecords | ndmp/src/ndmp_data.c:345-367 | A 0x401 turn whose path and user make words that are not recorded leaves the records of the file followed by volume, address and path, and user |
| BackupRuns.RecoverReadsBackupTurn | ndmp/src/ndmp_data.c:640-663 | After a 0x401 turn with a word key and any turns that keep the form of the file, a 0x402 turn of the same address and path, on any session, copies from exactly the backup's directory extended by the original path it names, to the client and place it names |
| ServiceRuns.AddedRecord | ndmp/src/ndmp_msg.c:351-357 | A record that terminate_session adds between two turns changes nothing that any handler finds, sends or leaves |
| Threads.Threads.ProcessResponse | comm/src/worker.c:91-122 | One turn of the responder loop is Fetch and Send: it sends only to an active descriptor, to the session found there, and frees either way |
| Comm.CommContext.AcceptAllConnections | comm/src/comm.c:207-256 | On the heap: appends the session and its pseudo request, raises maxfds to the new descriptor when it is higher, does nothing when accept failed; the active sessions stay distinct and within maxfds |
| Comm.CommContext.SetFdFlags | comm/src/comm.c:115-127 | The select set is the listener and exactly the active descriptors, all at most maxfds |
| Comm.CommContext.HandleAClientRequest | comm/src/comm.c:273-305 | On the heap: data appends one request for the session found; none removes the session, marks its record terminated and queues nothing; the states of all records stay, and the active sessions stay distinct and within maxfds |
| Comm.CommContext.HandleClientRequests | comm/src/comm.c:258-267 | On the heap: one pass over the descriptors does what TurnAt computes to the sessions, the request queue and the records; the states of all records stay, and the active sessions stay distinct and within maxfds |
| MainThread.AcceptIsRun | comm/src/comm.c:207-256 | An accept is a legal run of two steps with the effect of AcceptAllConnections; it also numbers the connection and marks the descriptor as seen |
| MainThread.RequestIsRun | comm/src/comm.c:273-305 | A request or a closed connection is a legal run of one or three steps with the effect of HandleAClientRequest; a closed one has left, and its transaction is freed |
| MainThread.PassIsRun | comm/src/comm.c:258-267 | A whole pass is a legal run that ends with the sessions, requests, records and allocations of HandleClientRequests and leaves what the other threads work on alone; no connection is added, none that left comes back |
| Comm.PassServesOnce | comm/src/comm.c:258-267 | One pass serves each ready descriptor exactly once, in increasing order, and no other |
| Comm.PassLookupSucceeds | comm/src/comm.c:281-283 | The session lookup of the next ready descriptor never fails, even after the pass removed sessions; those removed are exactly the ready ones without data |
| Comm.PassRequests | comm/src/comm.c:284-300 | The pass queues one request for each ready session with data, in descriptor order, for the session it had at the start |
| LinkedQueue.Queue.constructor | utils/src/queue.c:22-29 | A new queue is well formed and empty |
| LinkedQueue.Queue.Enqueue | utils/src/queue.c:31-52 | Appends the element through one fresh node, also when `last` is stale |
| LinkedQueue.Queue.Dequeue | utils/src/queue.c:54-73 | Takes the first element, or nothing from an empty queue |
| LinkedQueue.Queue.GetElem | utils/src/queue.c:75-91 | Finds the first match of the contents |
| LinkedQueue.Queue.Search | utils/src/queue.c:98-122 | The walk stops at the first match with the node before it, or at the end |
| LinkedQueue.Queue.Unlink | utils/src/queue.c:103-117 | Taking out the head, the last or a middle node leaves a well-formed chain of the others |
| LinkedQueue.Queue.RemoveElem | utils/src/queue.c:93-124 | Removes the first match and nothing else, and keeps the queue well formed |
| LinkedQueue.Queue.GetAllElems | utils/src/queue.c:126-139 | The snapshot is the contents in order |
| LinkedQueue.Queue.NumElems | utils/src/queue.c:141-150 | The counter is the length of the contents |
| LinkedQueue.MatchAt | utils/src/queue.c:81-88 | First match and its removal are at the first index that matches |
| LinkedQueue.RemovedIsGone | utils/src/queue.c:101-122 | With at most one match, a removal leaves none |
| LinkedQueue.Perform | utils/src/queue.c:31-124 | After any mix of operations the heap queue gave the answers of the abstract sequence and spells its result |
| LinkedQueue.Fifo | utils/src/queue.c:31-73 | Without removals, what was there and what was put in is what came out followed by what remains |
| Xdr.RoundTrip | ndmp/src/ndmp.x:148-156 | For every schema and every value of it, decoding the encoding followed by any bytes gives that value and exactly those bytes |
| Xdr.PrefixFree | ndmp/src/ndmp.x:148-156 | Two encodings of one schema followed by anything are equal only for the same value and the same remainder |
| Xdr.DecodeSound | ndmp/src/ndmp_msg.c:50-56 | Whatever the bytes, a decoded value has the schema's type and its size is exactly what was consumed |
| Xdr.Encode | ndmp/src/ndmp_msg.c:173-178 | The encoding is as long as the computed size and a multiple of four; what stands at which byte is said by the rows of WireLayout |
| WireLayout.WordIsPositional | ndmp/src/ndmp_msg.c:81-83 | A word goes out as four bytes whose values count 2^24, 2^16, 2^8 and 1: the most significant byte first |
| WireLayout.WordOrder | ndmp/src/ndmp_msg.c:81-83 | Words compare as their bytes do, the first that differs deciding |
| WireLayout.NumberWord | ndmp/src/ndmp.x:148-156 | A number of any of the C types travels as its remainder modulo 2^32 |
| WireLayout.PaddedLayout | ndmp/src/ndmp.x:31-35 | Data is followed by fewer than four bytes, all zero |
| WireLayout.TextLayout | ndmp/src/ndmp.x:31-35 | A string is its length, its bytes and zeros |
| WireLayout.CharsLayout | ndmp/src/ndmp.x:31-35 | A string of one-byte characters goes character by character, and is read back |
| WireLayout.AnyPadding | ndmp/src/ndmp.x:31-35 | A string is decoded whatever stands in its padding |
| WireLayout.ArrayLayout | ndmp/src/ndmp.x:31-35 | An array is the number of its items, then its items |
| WireLayout.UnionLayout | ndmp/src/ndmp.x:259-265 | A union is its tag, then the arm of that tag |
| WireLayout.FieldAt | ndmp/src/ndmp.x:148-156 | The k-th field of a structure stands behind the sizes of the fields before it |
| WireLayout.ItemAt | ndmp/src/ndmp.x:31-35 | The k-th item of an array stands behind the sizes of the items before it |
| RecordMark.LengthRecovered | ndmp/src/ndmp_msg.c:81 | The OR sets the last-fragment bit, and the low 31 bits are the length exactly when it is below 2^31 |
| RecordMark.StreamReadsBack | ndmp/src/ndmp_msg.c:79-87 | The concatenated frames of any list of replies read back, by the record-marking rule, as exactly that list |
| RecordMark.FrameReadsIff | ndmp/src/ndmp_msg.c:79-87 | A frame followed by anything reads back as its message exactly when that is shorter than 2^31 bytes |
| WireLayout.MarkBytes | ndmp/src/ndmp_msg.c:79-87 | Below 2^31 bytes the first byte of a frame is at least 0x80, and the four bytes, the first less 0x80, are the length with the most significant byte first; the message follows |
| Messages.HeaderRoundTrip | ndmp/src/ndmp.x:148-156 | A header decodes from its encoding, whatever follows |
| Messages.DecodedHeaderFits | ndmp/src/ndmp_msg.c:56 | 24 bytes always decode to a header within the field types, and exactly 24 are consumed |
| WireLayout.HeaderWords | ndmp/src/ndmp.x:148-156 | The six words of an encoded header are sequence, time stamp, type, message number, reply sequence and error |
| WireLayout.DecodedWords | ndmp/src/ndmp_msg.c:56 | A header is decoded from the same six places |
| Messages.ClientReads | ndmp/src/ndmp_msg.c:79-87 | A client reads a framed message as its header, with its body exactly on success |
| Messages.RequestToReply | ndmp/src/ndmp_msg.c:197-206 | From request bytes to reply bytes: type REPLY, the request's message number, its sequence as reply_sequence, the handler's error, the body exactly on success |
| NdmpServer.NdmpServer.XdrDecodeEncode | ndmp/src/ndmp_msg.c:46-91 | A request record, its mark stripped, is decoded, dispatched, handled and answered: what the client decodes, that it fits the buffer, what is copied from where to where, and all that the next request finds - the session's three states, the environment and its room, the volume file and the counter; a close leaves no reply, a client's 0xf001 gets the greeting. The rows of Protocol say it number by number |
| NdmpServer.NdmpServer.Handle | ndmp/src/ndmp_msg.c:93-137 | The handler that dispatch selects decides the outcome and what is copied, and leaves the connection, data and mover states, the environment and the file as the connect handlers and the data machine do; the rows of Protocol tie this to the message numbers |
| NdmpServer.NdmpServer.HandleData | ndmp/src/ndmp_msg.c:118-133 | Every data message and a close makes its transition of the data machine; only a close writes the connection and mover states, only a backup the volume file; a start copies between the directory and the client that its settings and names give |
| NdmpServer.NdmpServer.GetNextSeqNumber | ndmp/src/ndmp_msg.c:190-195 | Returns the counter and advances it by one |
| NdmpServer.NdmpServer.AcceptNotify | ndmp/src/ndmp_msg.c:155-187 | The greeting is 40 framed bytes that a client decodes to a REQUEST (type 0) with the next sequence number, message 0x502, reply sequence 0, no error, reason 0, protocol version 3 and no text |
| Protocol.HandlesIff | ndmp/src/ndmp_msg.c:46-62 | What is handled has a whole header and not the number 0x400 |
| Protocol.ArgSent | ndmp/src/ndmp_msg.c:50-62 | Arguments that a client encodes behind the header are the ones the handler finds |
| Protocol.OpenServed | ndmp/src/ndmp_connect.c:66-90 | 0x900: error 19 unless the connection state is LISTEN (1), 9 for a version above 3, else none and the state is CONNECTED (2) |
| Protocol.CloseServed | ndmp/src/ndmp_connect.c:118-121 | 0x902: no reply, no number taken, and all three states 4 |
| Protocol.ListenServed | ndmp/src/ndmp_data.c:117-131 | 0x409: error 19 unless IDLE (0), 9 for an address type other than 0, else none and the state is LISTEN (3) |
| Protocol.ConnectServed | ndmp/src/ndmp_data.c:185-197 | 0x40A: error 19 unless IDLE (0), 9 for an address type other than 0, else none and the state is CONNECTED (4) |
| Protocol.AbortServed | ndmp/src/ndmp_data.c:725-731 | 0x403: error 19 in IDLE (0) and HALTED (2), else none and the state is HALTED |
| Protocol.StopServed | ndmp/src/ndmp_data.c:784-791 | 0x407: error 19 unless HALTED (2), else none, the state is IDLE (0) and the environment is cleared |
| Protocol.GetEnvServed | ndmp/src/ndmp_data.c:844-870 | 0x404: in every state no error and the whole environment, nothing changed |
| Protocol.BackupServed | ndmp/src/ndmp_data.c:266-500 | 0x401, for the settings in its bytes: error 19 unless the state is 4, the volume recorded or mounted, and rsync successful; HALTED, the request's environment, the file with a host line and for a new key the line `volume address-path user`; rsync from user@address:path/ to point/volume/address-path unless the mount failed |
| Protocol.RecoverServed | ndmp/src/ndmp_data.c:566-697 | 0x402, for the settings and the first name in its bytes: error 19 unless the state is 4 and rsync successful; HALTED and nothing else changed; rsync from point/volume/address-path extended by the original path to user@address:destination |
| Protocol.PairsInOrder | ndmp/src/ndmp.x:31-35 | An argument of pairs is read pair by pair, first the name, then the value |
| Protocol.PairsSent | ndmp/src/ndmp.x:31-35 | A reply holds the pairs in order, first the name, then the value |
| Protocol.HostInfoServed | ndmp/src/ndmp_config.c:51-110 | 0x100: error 1, or host name, system, version and the id 1, in this order |
| Protocol.ConnectionTypeServed | ndmp/src/ndmp_config.c:112-164 | 0x102: the address types 0 and 1 |
| Protocol.AuthAttrServed | ndmp/src/ndmp_config.c:166-226 | 0x103: no challenge for authentication type 0, error 1 for any other |
| Protocol.ButypeInfoServed | ndmp/src/ndmp_config.c:228-302 | 0x104: for the attributes 0x2, 0x8, 0x20 and 0x80 in turn, dump, tar and cpio without an environment |
| Protocol.FsInfoServed | ndmp/src/ndmp_config.c:304-408 | 0x105: error 1, or the one file system |
| Protocol.TapeInfoServed | ndmp/src/ndmp_config.c:410-485 | 0x106: the one tape with its device, attribute 1 and size |
| Protocol.ScsiInfoServed | ndmp/src/ndmp_config.c:487-551 | 0x107: error 1 without devices, else all of them |
| Protocol.ServerInfoServed | ndmp/src/ndmp_config.c:553-602 | 0x108: vendor, product, revision and authentication type 0 |
| Protocol.GreetingServed | ndmp/src/ndmp_msg.c:155-187 | 0xf001 from a client: a REQUEST 0x502 with the next number, reply sequence 0, reason 0, version 3 and no text |
| Protocol.OtherServed | ndmp/src/ndmp_msg.c:139-153 | Any other number: error 1, nothing changed |
| Protocol.ConfigFields | ndmp/src/ndmp.x:248-323 | The fields of the replies to 0x100, 0x102, 0x103, 0x104 and 0x108 |
| Protocol.DeviceFields | ndmp/src/ndmp.x:331-386 | The fields of the replies to 0x105, 0x106 and 0x107 |
| Protocol.DataFields | ndmp/src/ndmp.x:811-906 | The fields of the replies to the data messages, and of the greeting |
| NdmpServer.OutcomeFits | ndmp/src/ndmp_config.c:51-602 | Every reply fits the buffer if the operating system's answers about host, file system and devices do and the environment has room |
| Replies.RequestEnvRoom | ndmp/src/ndmp_data.c:262-291 | The environment that arrives in a START_BACKUP record of at most MAX_MESSAGE_SIZE bytes has room in a GET_ENV reply of at most as many |
| NdmpServer.OutcomeSendable | ndmp/src/ndmp_config.c:51-602 | Every outcome of a handler is an error or a body of the reply schema of its message |
| NdmpServer.ConfigSendable | ndmp/src/ndmp_config.c:51-602 | The configuration replies are values of their schemas |
| Messages.MessageBytes | ndmp/src/ndmp_msg.c:139-153 | An error reply is its 24-byte header alone, a success its header and the body's computed size |
| Replies.EnvReplyBound | ndmp/src/ndmp_data.c:844-890 | With at most 8 pairs of strings under 64 characters, a GET_ENV reply is at most 1124 bytes framed, within the buffer |
| Replies.ButypeInfo | ndmp/src/ndmp_config.c:228-302 | The loop fills twelve entries: dump, tar and cpio for each of the four attributes |
| Replies.ButypeReplySize | ndmp/src/ndmp_config.c:228-302 | That reply is 224 bytes before framing |
| Replies.PvalsOf | ndmp/src/ndmp.x:31-35 | The environment array as pairs of strings, from which the same array is rebuilt |
| DataStates.StopAndConnectBetweenStarts | ndmp/src/ndmp_data.c:267-273 | Between two successful starts of a session that does not close there is a successful stop, or the end of its record, and later a successful connect |
| DataStates.ListenNeverStarts | ndmp/src/ndmp_data.c:117-131 | After a successful LISTEN, a session that does not close, on the same record, starts nothing before it was HALTED and then IDLE |
| DataStates.NeverActive | ndmp/src/ndmp_data.c:497 | Between requests a session is IDLE, HALTED, LISTENING or CONNECTED, never ACTIVE |
| DataStates.StartableIff | ndmp/src/ndmp_connect.c:118-120 | A session can start exactly when it connected or closed and has neither started nor aborted nor lost its record since |
| DataStates.ListeningIff | ndmp/src/ndmp_data.c:117-131 | A session is in LISTEN exactly when it made a successful LISTEN and has neither started nor aborted nor closed nor lost its record since |
| DataStates.HaltedIff | ndmp/src/ndmp_data.c:497 | A session is HALTED exactly when it started, with or without success, or aborted with success, and has neither stopped nor closed nor lost its record since |
| DataStates.CloseThenStart | ndmp/src/ndmp_connect.c:118-120 | A close alone lets a start through that no connect prepared |
| DataStates.EnvOfLatestBackup | ndmp/src/ndmp_data.c:286-291 | GET_ENV returns the environment of the latest START_BACKUP of any session, or nothing when a successful stop of any session came after it |
| DataStates.EnvWithoutBackup | ndmp/src/ndmp_data.c:784-791 | Before any START_BACKUP there is no environment |
| DataStates.ConnectedBy | ndmp/src/ndmp_data.c:185-197 | A session that reaches CONNECTED without a close was IDLE and made a successful connect |
| DataStates.IdleBy | ndmp/src/ndmp_data.c:784-791 | A session that gets back to IDLE was HALTED and made a successful stop, or its record was freed |
| DataService.DataService.DataListen | ndmp/src/ndmp_data.c:117-131 | Error and new state as the data machine's Listen; ListenServed and ListeningIff say what that is |
| DataService.DataService.DataConnect | ndmp/src/ndmp_data.c:185-197 | Error and new state as the data machine's Connect |
| DataService.DataService.DataStartBackup | ndmp/src/ndmp_data.c:266-500 | Error, state and environment as the data machine's StartBackup; the volume file as Volumes.FileAfter and the arguments of rsync as BackupCopy, also when refused; BackupServed spells them out |
| DataService.DataService.ScanEnv | ndmp/src/ndmp_data.c:299-317 | The scan finds the settings FILESYSTEM and USER of the environment, which SettingIsLast and NoSettingIff say are the values of the last pairs of these names |
| DataService.SettingIsLast | ndmp/src/ndmp_data.c:299-317 | A setting is the value of the last pair with its name |
| DataService.NoSettingIff | ndmp/src/ndmp_data.c:299-317 | There is no setting exactly when no pair has its name |
| DataService.DataService.CopyEnv | ndmp/src/ndmp_data.c:286-291 | The element-wise copy is the whole environment |
| DataService.DataService.SelectVolume | ndmp/src/ndmp_data.c:319-370 | The volume is the first recorded one of the key or the operator's, which is then appended to the file |
| DataService.DataService.LastVolume | ndmp/src/ndmp_data.c:604-639 | The scan leaves the volume of the last record with the key |
| DataService.DataService.DataStartRecover | ndmp/src/ndmp_data.c:562-699 | Error and state as the data machine's StartRecover; the arguments of rsync as RecoverCopy, which RecoverServed spells out; the file and the environment are left alone |
| DataService.DataService.DataAbort | ndmp/src/ndmp_data.c:725-731 | Error and new state as the data machine's Abort |
| DataService.DataService.DataStop | ndmp/src/ndmp_data.c:784-791 | Error, state and cleared environment as the data machine's Stop |
| DataService.DataService.DataGetEnv | ndmp/src/ndmp_data.c:844-870 | Always answers with the whole environment |
| DataService.DataService.ConnectOpen | ndmp/src/ndmp_connect.c:66-90 | Error and connection state for every state and version but an unset one |
| DataService.DataService.ConnectCloseSession | ndmp/src/ndmp_connect.c:118-121 | The halted states it writes are numerically a connected data state |
| Volumes.RecoverReadsBackup | ndmp/src/ndmp_data.c:434-441 | When a backup whose key is a word and all later ones keep the form of the file, a recover of its client and path reads from exactly the directory it wrote to, extended by the requested path; BackupRuns.RecoverReadsBackupTurn is the same of whole requests |
| Volumes.RecoverUsesBackupVolume | ndmp/src/ndmp_data.c:628-637 | At any time of a run whose backups keep the form, recover's last match is backup's first match |
| Volumes.AlwaysGoodIff | ndmp/src/ndmp_data.c:349-370 | The file stays well formed with unique keys through a run of backups exactly when each one keeps the form of the file it finds |
| Volumes.RunKeepsRecords | ndmp/src/ndmp_data.c:349-370 | In any such run no record moves or changes, and the host line stays |
| Volumes.KeepsFormIff | ndmp/src/ndmp_data.c:365-367 | One backup of any path and user keeps the file well formed with unique keys exactly when its key is recorded, or its line is read as whole records with new, distinct keys |
| Volumes.RecordsStay | ndmp/src/ndmp_data.c:365-367 | One backup of any path and user leaves every record in place and the host line as it was |
| Volumes.BackupRecorded | ndmp/src/ndmp_data.c:349-367 | A backup whose key is a word is recorded under it with the volume it used, whoever the user |
| Volumes.RecoverKeptIff | ndmp/src/ndmp_data.c:633-637 | A backup leaves the volume that a recover uses for a recorded key exactly when it appends nothing that is read as a record of that key with another volume |
| Volumes.SecondRedirectsFirst | ndmp/src/ndmp_data.c:366 | Two backups after which the first and the last match of the first key name different volumes |
| Volumes.FirstIsLast | ndmp/src/ndmp_data.c:349-354 | With unique keys the first record of a key is the last |
| Volumes.WithHostKeeps | utils/src/vol_info.c:189-214 | Completing the host line changes no record, and nothing at all in a file that has one |
| Volumes.KeyDetermines | ndmp/src/ndmp_data.c:345-347 | An address without a slash and an absolute path are determined by their concatenation |
| Volumes.DirDetermines | ndmp/src/ndmp_data.c:434-441 | Under one mount point a directory belongs to one volume, address and path, if the volume names have no slash |
| Volumes.SlashShares | ndmp/src/ndmp_data.c:434-441 | With a slash in a volume name two keys can share a directory |
| Volumes.CleanBackup | ndmp/src/ndmp_data.c:365-367 | A backup of words that are not recorded adds exactly its record behind those of the file |
| Volumes.RecordedIffWord | ndmp/src/ndmp_data.c:366 | Right after a backup, a recover finds a volume for it exactly when its key has no white space |
| VolumeFile.WriteThenScan | utils/src/vol_info.c:40-136 | A host line and any clean records, written and scanned back, are exactly those records in order |
| VolumeFile.AppendScans | ndmp/src/ndmp_data.c:365-367 | Appending any line to a well-formed file adds what its words scan as, and keeps the form exactly when they are whole triples |
| VolumeFile.AppendAddsRecord | ndmp/src/ndmp_data.c:365-367 | Appending a clean record's line adds that record at the end and nothing else |
| VolumeFile.HostKnown | utils/src/vol_info.c:189-214 | After set_host_config every file has a host line of two words |
| VolumeFile.AppendKeepsFormIff | ndmp/src/ndmp_data.c:366 | What is appended reads back as the record's three fields exactly when each is a non-empty word |
| VolumeFile.LineReadsBack | utils/src/vol_info.c:61 | A record line reads back as its fields exactly when each is a non-empty word |
| VolumeFile.JunkUnread | utils/src/vol_info.c:59-61 | What the buffers held before is never read from a well-formed file |
| VolumeFile.DirtyKeyNotFound | utils/src/vol_info.c:174-187 | A key with white space is found in no file |
| VolumeFile.InsertNode | utils/src/vol_info.c:16-35 | On the heap: walks to the end and appends one record, the nodes before it unchanged |
| VolumeFile.InitVolFsList | utils/src/vol_info.c:40-136 | On the heap: builds an acyclic list of exactly the file's records, and -1 exactly when there are none |
| VolumeFile.Find | utils/src/vol_info.c:174-187 | The first node of the list with the key, or none |
| TextTokens.TokensConcat | utils/src/vol_info.c:59-61 | The words of text that ends with a separator and of what follows are read one after the other |
| TextTokens.TokensAround | ndmp/src/ndmp_data.c:366 | A separator between two texts keeps their words apart, whatever they are |
| TextTokens.SpaceCodes | utils/src/vol_info.c:59-61 | White space is the codes 9 to 13 and 32 |
| ScsiLine.ParseIff | ndmp/src/ndmp_config.c:642-669 | A token list parses into given fields exactly when they are a line of the grammar that spells it; so the grammar is unambiguous |
| ScsiLine.ParseSound | ndmp/src/ndmp_config.c:642-669 | What is parsed is in the grammar, and its tokens in order are the line's, none lost or repeated |
| ScsiLine.ParseComplete | ndmp/src/ndmp_config.c:642-669 | Every line of the grammar is parsed into its own fields |
| ScsiLine.GetName | ndmp/src/ndmp_config.c:680-695 | Stops at the first token with a colon and joins the tokens up to it |
| ScsiLine.GetValue | ndmp/src/ndmp_config.c:697-715 | Joins one word, or the tokens before the next one with a colon, which it returns |
| ScsiLine.ParseLine | ndmp/src/ndmp_config.c:634-669 | The loop ends and yields the names and values of the parsed line, the newline of a value dropped |
| ScsiLine.JoinSpells | ndmp/src/ndmp_config.c:680-715 | Joined words, split at blanks, are the words again, with one blank between neighbours |
| ScsiLine.ChompDrops | ndmp/src/ndmp_config.c:642-669 | One final newline is dropped from a value, and nothing else |
| ScsiLine.PairsSpell | ndmp/src/ndmp_config.c:642-669 | The words of the pairs, name before value, are the tokens of the line but for newlines at the ends of values |
| ScsiLine.LineSpelled | ndmp/src/ndmp_config.c:642-669 | A parsed line without newlines is spelled by its pairs |
| ScsiLine.TypeLine | ndmp/src/ndmp_config.c:642-669 | In a Type line one word is the value, and the three words up to the next colon are a name |
| ScsiLine.VendorLine | ndmp/src/ndmp_config.c:642-669 | In a Vendor line the value is all words up to the next name |

## Left out

- Sockets, `select`, `recv`, `send`, signals and thread creation: steps and inputs; one receive delivers one whole record, as the code assumes, and FD_SETSIZE is not a limit here.
- Locks: each queue operation and each handler is one step; the fresh locks that do not exclude each other are not modelled.
- Logging, tracing, hex dumps and time stamps: no property depends on them; the time is an input.
- Memory: allocation sizes, the fixed lengths of C buffers and freed memory as such; a freed node or record is one that is in no structure any more.
- DATA_GET_STATE (0x400), whose handler is empty, and CONNECT_OPEN with version 0, for which the source's error is unset: excluded by `Answerable`, and 0x400 also by `PipelineBytes.Dispatched`.
- START_RECOVER without a name, or of an address and path that the file does not record: the source runs rsync on what uninitialised buffers hold; `RecoverCopy` is None there.
- The mkdir and mount commands of a backup and the escaping of their arguments: `works` and `mounts` say whether they succeed, and rsync's two arguments are strings.
- The fields of the file system reply (0x105): computed by the operating system and taken as one input value of their schema.
- A client's own 0xf001 is not left out: it is answered with a greeting (message 0x502, reply_sequence 0), not with a reply.
- Requests whose handler would read an unset pointer: a start without FILESYSTEM or USER is excluded by `Answerable`, a record shorter than a mark and a header by `Serves`.
- Tape, mover, SCSI and file-history messages without a handler: the codec covers their schemas, there is nothing else to model.
- Grouping of SCSI lines into devices and the 80-character line limit of `get_scsi_info`: the parser is modelled for one whole line.
- print_vol_fs_info and print_vol_info: they only print.
- The mounts that `init_vol_fs_list` attempts for existing records: they change no state of the server.
- Embedded NUL characters in strings: a C string ends there, a model string does not.
- PipelineRuns.SequenceIncreases: stated below 2^31 numbers, where the source's counter overflows.
- PipelineRuns.RightClient: stated for runs whose accepts are safe, because it fails otherwise; PipelineRuns.SafeIff has the exact condition.
- PipelineRuns.NotifyFirst: stated for runs whose accepts are safe, for the same reason.
- Volumes.RecoverUsesBackupVolume: stated for runs whose backups keep the form, because Volumes.SecondRedirectsFirst shows that it fails otherwise.
- Volumes.RecoverReadsBackup: stated for such runs; Volumes.RecoverKeptIff has the exact condition of one step.
- Threads.Threads.RunJob: the request and reply queues are kept by their contents beside the heap session table; the heap queue itself is proved in LinkedQueue and used in Comm and Sessions.
- Sessions.SessionTable.AddJobToSession: the job queue of one session is kept by its contents, not as a second linked queue inside the first.
- RecordMark.LengthRecovered: the OR with the top bit is given arithmetically on lengths below 2^32.
- NdmpServer.NdmpServer.XdrDecodeEncode: takes the session's record as given; Threads.Threads.XdrDecodeEncode finds it in the table.
- PipelineRecords.DanglesIff: what a write to a freed record does to memory is not modelled.
- NdmpServer.NdmpServer.AcceptNotify: the greeting must find the counter within an unsigned 32-bit word.
