# HP-Socket: protocols and codecs, modelled and proved in Dafny

This project models the concurrent protocols and the codecs of HP-Socket and proves what they
are for. `dafny verify dfyconfig.toml` checks everything.

Two forms are used, after the code. What several threads do to shared state is a machine: a
`State`, an `Action` for each single access to shared memory, lock operation, or call into the
system, and a function `Next`; theorems speak about every run of it, with any number of threads.
What one caller does under a lock, or alone, is a method with loops over a class or an array,
proved against a specification function.

| files | what |
|---|---|
| `TcpConnection`, `TcpConnectionInvariant`, `TcpConnectionTheorems`, `TcpHandlers`, `TcpProgress` | one TCP connection: two locks, send queue, pause flag, one-shot epoll arming, commands, closing; what its handlers do, and that nobody waits for ever |
| `TcpSend` | the send path of that connection as its lock owner runs it |
| `SocketPool`, `SocketPoolTheorems`, `SocketPoolReturn` | connection objects between the active table, the free ring, the garbage queue and threads |
| `UdpSend`, `UdpSendTheorems`, `UdpSendHandlers`, `UdpSendProgress` | the shared UDP socket and the queue of blocked connections |
| `UdpIndex`, `UdpIndexTheorems` | the UDP address index against the connection table |
| `ThreadPool`, `ThreadPoolSizing`, `ThreadPoolTasks`, `ThreadPoolStop`, `ThreadPoolSteady`, `ThreadPoolProgress` | the Linux thread pool |
| `WinThreadPool`, `WinThreadPoolTheorems`, `WinThreadPoolLimit` | the bounded queue counter of the Windows pool |
| `Bits`, `Bytes`, `Sums` | C's operators on unsigned words; byte strings; sums that measure what is still to do |
| `PackFraming`, `PackIo`, `PackPause`, `PackPauseTheorems`, `PackPauseLate` | PACK framing: codec, parser, and parser under pauses |
| `PackEndToEnd` | from SendPackets on one TCP connection to the listener behind another |
| `Cookies`, `CookieText`, `CookieFormat`, `CookieStore`, `CookieQuery`, `CookieFile` | the cookie store, its queries and its file |
| `DyingSweep` | the HTTP server's sweep over released connections |
| `Base64`, `WebSocket` | the two codecs |

## Results worth knowing

Properties that hold without conditions: no lost wakeup on TCP and UDP sockets; byte and datagram
conservation; one closer per connection; every connection object in one place; no object reused
or destroyed within the lock time; no surplus worker asleep; packets independent of the chunks in
which bytes arrive; from end to end, the packets delivered are the first payloads sent, in order;
a paused connection is not read; no deadlock on a TCP connection, on the UDP socket or in the Linux
thread pool: from every reachable state all threads can finish; a connection that nobody closes can
still send what it has accepted and anything more, and a Stop can come to its end.

Properties that hold under a condition, with the run or input that shows the condition is needed:

* **Stop of the Linux pool can lose accepted tasks.** A worker decides to exit on two counts read
  without `m_cs`; a new target 0 confirms that decision whatever is queued by then. Stop can end
  with tasks left exactly when, at the moment it is called, a task is coming and every thread of
  the set is already on its way out (`StopLosesWhenHopeless`). A fixed thread count does not
  exclude this, because `CreateWorkerThreads` enters a thread in the set before it counts it
  (`FixedCountCanLose`); if no thread looks at the queue before Start has created them all, it
  cannot happen (`SteadyRunsEverything`).
* **A socket task run by its submitter is not freed** (`CallerRunIsNotFreed`, `CallerRunHappens`).
* **Reset of the Windows pool breaks its counter** exactly when a Submit stands between its
  reservation and its post (`ResetDecides`); then the counter can fall below 0 and the restarted
  pool refuses every task (`UnderflowBlocksThePool`). **The next cycle's limit can be passed** in
  more cases: exactly when Reset finds a Submit that holds a reservation; or, with more than one
  submitter, one that has seen the pool started and not read the limit, or read it as unlimited; or
  one that has read the counter above 0 and below the old limit, and has not swapped yet; or, if
  the old limit was above 1, one that is about to read the counter while another can still raise it
  (`LimitIff`; `LimitPassed` is a run without any reservation).
* **The UDP index keeps a dead entry for good** exactly when an address is erased before it was
  entered (`AgreesIffNeverEarly`); it cannot happen if accepting is one step.
* **A bad header found by an unpause command** closes the connection only after `csIo` is
  released; other threads can go on in between. So pausing changes what is delivered exactly for
  the streams in which the bytes after the first bad header still make up a packet
  (`PausesMatterIff`), it never delivers anything but what skipping bad headers gives
  (`NothingElseDelivered`), and a valid connection can go on after a bad header exactly while the
  thread that found it for a command has not closed it (`GoesOnIff`).
* **AddPackHeader sums lengths in a DWORD**: the receiver gets the packet that was sent exactly
  while the true sum is below 2^32 (`WireArrivesIff`, `OverlongSend`).
* **GetCookies misses domains after an even run of dots**: it agrees with a scan by `Match`, for
  every store, exactly on the hosts whose inner runs of dots have odd length (`ScanAgreesIff`).
* **A cookie file with a living cookie line before its first domain line** files the cookie under
  an empty domain: the store stays well filed exactly if there is none (`LoadKeepsFiled`). That
  cookie, and no other, replaces one stored under its key (`LoadReplacesIff`), although what is
  stored was to be kept.
* **The sweep** never looks again at an entry whose age, modulo 2^32 ms, is 2^31 ms or more, until
  that wraps (`DueIff`).
* **A thread that keeps an object's address** for some time after the release can close another
  connection with it if and only if that time is the lock time or more (`LateUseClosesAnother`).
* **GuessBase64EncodeBound** is exact exactly up to 0xBFFFFFFD bytes (`EncodeBoundIff`).

Where the code departs from RFC 6265, the model follows the code: `AdjustPath` cuts a path to its
directory, so a cookie path of `/docs` is stored as `/` (section 5.1.4 would keep it), and the
path of a cookie is a plain prefix of the request path.

## Model

| member | source | states |
|---|---|---|
| TcpConnectionTheorems.NoLostWakeup | Linux/src/TcpServer.cpp:690-740 | in every state of every run of a valid connection: queued bytes have EPOLLOUT armed, a send command, a worker that will still look at the length, or a SendPackets caller about to post; not paused means the same for EPOLLIN and the unpause command, although lengths and the flag are read without their locks |
| TcpConnectionTheorems.QuietIsArmed | Linux/src/TcpServer.cpp:690-703 | with every thread idle and no command queued, the registration itself asks for EPOLLOUT while bytes are queued and for EPOLLIN while not paused |
| TcpConnectionTheorems.BytesConserved | Linux/src/TcpServer.cpp:901-973 | accepted bytes are written bytes, then a worker's item, then the queue, in order, across the write cap, short writes and push-back; what was written stays a prefix of what was accepted; OnSend reports exactly the written bytes but for one write in progress |
| TcpConnectionTheorems.CallsContiguous | Linux/src/TcpServer.cpp:1003-1051 | the accepted bytes are the payloads of the finished SendPackets calls in lock order and a part of the one running: no call is cut by another |
| TcpConnectionTheorems.OneCloser | Linux/src/TcpServer.cpp:304-318 | at most one AddFreeSocketObj wins, OnClose fires at most once, no OnReceive or OnSend starts after it, and the assertion of OnAfterProcessIo holds |
| TcpConnectionTheorems.CloserFixed | Linux/src/SocketHelper.h:430-449 | once invalid, an incarnation stays invalid and keeps its winner |
| TcpConnectionTheorems.RunKeepsInv | Linux/src/TcpServer.cpp:642-740 | the connection invariant holds in every state of every run |
| TcpConnectionInvariant.WorkKept | Linux/src/TcpServer.cpp:853-973 | every single step of a dispatcher worker keeps the invariant: lock ownership, content, and both kinds of outstanding wakeups (what a handler may do when is in TcpHandlers) |
| TcpConnectionTheorems.SenderKept | Linux/src/TcpServer.cpp:1003-1051 | every step of a SendPackets caller, also one running inside OnSend, keeps the invariant |
| TcpConnectionTheorems.PauserKept | Linux/src/TcpServer.cpp:642-661 | every step of a PauseReceive caller keeps the invariant |
| TcpHandlers.NotReadWhilePaused | Linux/src/TcpServer.cpp:862-878 | in every run, a worker enters OnReceive only in a state in which the connection is not paused |
| TcpHandlers.StaysUnread | Linux/src/TcpServer.cpp:862-878 | while the pause flag stays set, no worker that is not in OnReceive comes to it |
| TcpHandlers.ReadsAreLimited | Linux/src/TcpServer.cpp:859-863 | counted over the run, one visit of HandleReceive calls OnReceive at most 30 times, unless the peer has hung up |
| TcpHandlers.ItemsAreLimited | Linux/src/TcpServer.cpp:901-937 | counted over the run, one visit of HandleSend pops at most 50 items, unless the peer has hung up |
| TcpHandlers.ReadsOn | Linux/src/TcpServer.cpp:862-898 | HandleReceive is left only when paused, at its limit, with nothing more to read, or to close the connection |
| TcpHandlers.SendsOn | Linux/src/TcpServer.cpp:918-973 | HandleSend is left only with the queue empty, at its limit, with the socket full, or to close the connection |
| TcpHandlers.WorkComes | Linux/src/TcpServer.cpp:663-727 | every step of a worker comes to its place in the handlers from a right one and on a right answer: reads before sends before the hang-up, each piece popped, written and reported in its turn |
| TcpHandlers.ClosesForCause | Linux/src/TcpServer.cpp:869-894 | a handler closes the connection only for end of file, a failed read or write, a refusal by the listener, an error event, or a hang-up whose reads and writes are done |
| TcpHandlers.FatalCloses | Linux/src/TcpServer.cpp:729-740 | after such a failure, or a refusal of a packet handed out for an unpause command, the connection is closed by the time the worker is idle again |
| TcpHandlers.SendComes | Linux/src/TcpServer.cpp:1003-1051 | a SendPackets on a valid connection appends its buffers one by one and posts a command exactly if the queue was empty when it took the lock and no longer is; only on an invalid one it does nothing |
| TcpHandlers.PauseComes | Linux/src/TcpServer.cpp:652-658 | a PauseReceive sets the flag only if it differs, and posts an unpause command exactly after it has cleared it |
| TcpHandlers.PauseTakesEffect | Linux/src/TcpServer.cpp:642-661 | when a PauseReceive returns, the flag has had the value asked for at some moment since the call |
| TcpProgress.SomeoneMoves | Linux/src/TcpServer.cpp:663-703 | in every state that keeps the invariant, if any thread is in the middle of something, some thread can take a step that does not wait for a lock: csIo and csSend do not deadlock |
| TcpProgress.CanFinish | Linux/src/TcpServer.cpp:663-703 | such steps bring all threads to rest, and leave the connection open and unpaused if nobody was closing or pausing it |
| TcpProgress.AllCanBeSent | Linux/src/TcpServer.cpp:705-727 | from every reachable state of a connection nobody is closing, everything accepted can still be written |
| TcpProgress.CanBeRead | Linux/src/TcpServer.cpp:729-740 | from every reachable state of a connection nobody is closing or pausing, a worker can still come to read |
| TcpProgress.UnpauseIsServed | Linux/src/TcpServer.cpp:729-740 | with an unpause command queued, a worker can still come to hand out, under csIo, the packets kept back |
| TcpProgress.AnythingCanBeSent | Linux/src/TcpServer.cpp:1003-1051 | from every such state any further bytes can be accepted, and written behind all that was accepted before |
| TcpSend.Connection.Cat | Linux/src/common/BufferPool.h:42-43 | appends exactly the data, filling the last item before opening another and touching no earlier one |
| TcpSend.Connection.SendInternal | Linux/src/TcpServer.cpp:1027-1051 | appends the buffers in order, and queues one command exactly when the list was empty and no longer is |
| TcpSend.Connection.Report | Linux/src/TcpServer.cpp:948-957 | the bytes the socket took are reported once and taken off the item; what the listener sends meanwhile goes behind |
| TcpSend.Connection.SendItem | Linux/src/TcpServer.cpp:942-973 | writes a prefix of the item and returns the rest; conservation is kept through sends made inside OnSend; fails exactly when the connection was closed |
| TcpSend.Connection.HandleSend | Linux/src/TcpServer.cpp:901-940 | terminates if the listener sends finitely often; bytes are written strictly in order, a part item goes back to the front, at most 50 items are popped when limited, those behind them are where they were, and it stops early only when the socket blocks or fails or the list is empty |
| SocketPoolTheorems.OnePlace | Linux/src/TcpServer.cpp:272-318 | every object not destroyed is in exactly one of the active table, the free ring, the garbage queue and a thread's hands |
| SocketPoolTheorems.OneHolder | Linux/src/TcpServer.cpp:304-341 | an object is in one thread's hands only, once in the ring or queue, and under one id in the table; the ring keeps its size |
| SocketPoolTheorems.NoEarlyReuse | Linux/src/TcpServer.cpp:272-318 | whenever an object is given to a new connection or destroyed, every connection it was given to before has been released, and the lock time has passed since |
| SocketPoolTheorems.NoMistakenClose | Linux/src/TcpServer.cpp:304-318 | a thread that uses an address before the lock time has passed since the release finds the connection it looked for, or none that is valid, whatever other threads do |
| SocketPoolTheorems.OneCloseAndLast | Linux/src/TcpServer.cpp:353-366 | per connection the events are data, then at most one winner, then at most one OnClose |
| SocketPoolTheorems.LateUseClosesAnother | Linux/src/TcpServer.cpp:272-307 | for every lock time and every time waited after the release: some run has a thread close another connection than the one it looked for if and only if it waited the lock time or more |
| SocketPoolTheorems.NextKept | Linux/src/common/RingBuffer.h:1698-1753 | every step, also of the garbage collection of other threads, keeps the placing of all objects |
| SocketPoolReturn.EverythingReturns | Linux/src/TcpServer.cpp:272-341 | from every reachable state all threads can finish; then each object is active under its own id, or in the ring or the garbage queue, or destroyed |
| SocketPoolReturn.GarbageGoes | Linux/src/TcpServer.cpp:320-341 | the garbage in front can be destroyed once its lock time has passed, and not before |
| SocketPoolReturn.FiresIffAsked | Linux/src/TcpServer.cpp:304-318 | OnClose is fired for the connection the thread has won, and only if that was asked for |
| UdpSendTheorems.NoLostWakeup | Linux/src/UdpServer.cpp:900-959 | a valid connection with datagrams has a send command queued, a worker in DoSend, a caller about to post, or its id on the queue with EPOLLOUT still to come or a pusher or drainer in mid-step, in every interleaving of push-then-arm with disarm-then-drain |
| UdpSendTheorems.QuietIsArmed | Linux/src/UdpServer.cpp:912-959 | with all threads idle and no command, such a connection is on the queue and EPOLLOUT is registered and still to come |
| UdpSendTheorems.DatagramsKept | Linux/src/UdpServer.cpp:961-988 | datagrams keep order and boundaries: accepted is sent, then the one in hand, then the queue; each is reported once |
| UdpSendTheorems.SenderKept | Linux/src/UdpServer.cpp:1071-1090 | every step of a Send caller, who posts its command after leaving the lock, keeps the invariant |
| UdpSendHandlers.WorkComes | Linux/src/UdpServer.cpp:900-988 | every step of a worker comes to its place from a right one, on a right answer: disarm before drain, push before arm, and a repost exactly at the limit with datagrams left |
| UdpSendHandlers.DatagramsAreLimited | Linux/src/UdpServer.cpp:923-948 | counted over the run, one visit of DoSend pops 50 datagrams at most |
| UdpSendHandlers.SendComes | Linux/src/UdpServer.cpp:1071-1090 | a Send on a valid connection appends its datagram whole and posts a command exactly if the queue was empty; only on an invalid one it does nothing |
| UdpSendProgress.CanFinish | Linux/src/UdpServer.cpp:912-959 | the connections' locks do not deadlock: from every state that keeps the invariant all threads can finish |
| UdpSendProgress.AllCanBeSent | Linux/src/UdpServer.cpp:900-959 | from every reachable state, all that a valid connection has accepted can still be sent |
| UdpSendProgress.AnythingCanBeSent | Linux/src/UdpServer.cpp:1071-1090 | and any further datagram, behind it |
| UdpIndexTheorems.IndexAgrees | Linux/src/UdpServer.cpp:815-846 | if no address is erased before it is entered: addresses lead to ids and ids to objects, no two live connections share an address, no entry is stale, and an eraser erases its own entry |
| UdpIndexTheorems.AgreesIffNeverEarly | Linux/src/UdpServer.cpp:295-307 | with no receiver between its two insertions, the index has no stale entry if and only if no address was erased too early |
| UdpIndexTheorems.EraseIsOwn | Linux/src/UdpServer.cpp:302-307 | the erase by address removes the closer's own entry and no other connection's |
| UdpIndexTheorems.EarlyEraseLeavesEntry | Linux/src/UdpServer.cpp:333-362 | a run in which a connection closed between its two insertions leaves an entry behind |
| UdpIndexTheorems.AnyoneCanConnect | Linux/src/UdpServer.cpp:333-362 | csAccept does not deadlock: from every reachable state all receivers and closers can finish, and then an address without an entry can be accepted and gets one that leads to a live connection |
| ThreadPoolSizing.SurplusIsOwed | Linux/src/HPThreadPool.cpp:265-297 | under any growing and shrinking, the set never falls below the target, and the surplus is at most the awake threads, the notifications still owed and the thread being created |
| ThreadPoolSizing.NoSurplusAsleep | Linux/src/HPThreadPool.cpp:349-420 | when all threads sleep and no resizer is at work, the set has exactly the target size |
| ThreadPoolSizing.NoTaskLeftToSleepers | Linux/src/HPThreadPool.cpp:198-221 | while a task is queued, nobody sleeps or some thread will look at the queue |
| ThreadPoolSizing.EraseFindsItself | Linux/src/HPThreadPool.cpp:393-420 | the erase of an exiting thread always finds it in the set |
| ThreadPoolSizing.NextKept | Linux/src/HPThreadPool.cpp:299-342 | every step of workers, submitters and resizers keeps lock ownership and the counting |
| ThreadPoolTasks.TasksAtMostOnce | Linux/src/HPThreadPool.cpp:167-221 | tasks start in the order of acceptance, run at most once, are freed at most once and only by a worker that ran them; a refused task never runs; the queue keeps its limit |
| ThreadPoolTasks.CallerRunIsNotFreed | Linux/src/HPThreadPool.cpp:184-187 | a task run by its submitter ran once and was not freed |
| ThreadPoolTasks.CallerRunHappens | Linux/src/HPThreadPool.cpp:90-187 | a run from the start of a pool with room for one task to a second socket task run by its submitter |
| ThreadPoolTasks.NextKept | Linux/src/HPThreadPool.cpp:223-243 | every step, also of the waiting resubmission, keeps every task's account |
| ThreadPoolTasks.SubmitterDecides | Linux/src/HPThreadPool.cpp:167-243 | a task is pushed only into a started pool and below the limit; with the queue full it is refused, waits, or is run by its caller, as the policy says; otherwise it is refused only if the pool is not started |
| ThreadPoolTasks.CallerRunsByPolicy | Linux/src/HPThreadPool.cpp:174-191 | over all runs, a task is run by its submitter under TRP_CALLER_RUN only |
| ThreadPoolProgress.SomeoneMoves | Linux/src/HPThreadPool.cpp:299-420 | whoever waits for m_mtx or m_cs waits for a thread that can move |
| ThreadPoolProgress.AcceptedCanRun | Linux/src/HPThreadPool.cpp:299-347 | from every reachable state in which no thread is being created, all threads can come to rest with every accepted task run once, unless no thread is left; one is left if no resizer is at work and the target is not 0 |
| ThreadPoolProgress.StopCanEnd | Linux/src/HPThreadPool.cpp:90-155 | from every state after Stop was called, with no Start or AdjustThreadCount in progress at the call, the pool can still get to Stopped with no thread left |
| ThreadPoolStop.StopRunsEverything | Linux/src/HPThreadPool.cpp:90-155 | if Stop is called while some thread of the set is not leaving or no task is coming: in the end the queue is empty and every accepted task ran exactly once, in order, and socket tasks were freed exactly once |
| ThreadPoolStop.StopLosesWhenHopeless | Linux/src/HPThreadPool.cpp:393-420 | a Stop can end with the set empty and tasks queued if and only if a task is coming and every thread of the set is on its way out when it is called |
| ThreadPoolStop.HopelessLoses | Linux/src/HPThreadPool.cpp:265-297 | from any such state, the run in which the threads leave one by one and the tasks stay |
| ThreadPoolSteady.FixedCountCanLose | Linux/src/HPThreadPool.cpp:319-334 | a run with a fixed count from Start on that reaches such a state and loses an accepted task |
| ThreadPoolSteady.SteadyIsNotHopeless | Linux/src/HPThreadPool.cpp:349-391 | with a fixed count and no look at the queue during creation, every thread of the set is at work when Stop is called |
| ThreadPoolSteady.SteadyRunsEverything | Linux/src/HPThreadPool.cpp:90-155 | exactly-once execution for those runs |
| WinThreadPoolTheorems.CounterCounts | Windows/Src/HPThreadPool.cpp:79-91 | if no Submit is in progress at a Reset: in every state, bounded or not, the counter is the reservations, queued tasks and popped tasks, never above the limit, and above 0 whenever it is about to be lowered |
| WinThreadPoolTheorems.LoopIsAtomic | Windows/Src/HPThreadPool.cpp:186-228 | each step of the compare-and-swap loop is a step of an atomic bounded queue: admission and refusal are right about the number really in flight at that moment |
| WinThreadPoolTheorems.LimitStands | Windows/Src/HPThreadPool.cpp:191-213 | the limit does not change while a submitter is in DirectSubmit |
| WinThreadPoolTheorems.RunDrift | Windows/Src/HPThreadPool.cpp:79-91 | all other steps keep the counter's distance from the number in flight, modulo 2^32 |
| WinThreadPoolTheorems.ResetDecides | Windows/Src/HPThreadPool.cpp:308-314 | until the next Reset the counter is exact if and only if the last one found no reservation |
| WinThreadPoolTheorems.UnderflowBlocksThePool | Windows/Src/HPThreadPool.cpp:218-225 | a run in which the counter falls below 0 across a restart |
| WinThreadPoolTheorems.StuckRefusesAll | Windows/Src/HPThreadPool.cpp:195-207 | a pool in that state admits nothing until it is stopped |
| WinThreadPoolLimit.LimitKept | Windows/Src/HPThreadPool.cpp:186-228 | over any number of cycles whose Resets find none of the harmful phases: a bounded pool at work counts the tasks in flight, never more than its limit, and the counter never falls below 0 |
| WinThreadPoolLimit.LimitIff | Windows/Src/HPThreadPool.cpp:308-314 | from any reachable Reset, before another one: some continuation has more tasks in flight or counted than the limit if and only if the Reset finds one of the phases named above |
| WinThreadPoolLimit.LimitPassed | Windows/Src/HPThreadPool.cpp:186-193 | a run in which a Submit that saw the first cycle started queues a second task where the next cycle allows one |
| Bits.OrDisjoint | Linux/src/MiscHelper.cpp:45 | `|` of words that share no bit is their sum |
| Bits.AndMask | Linux/src/SocketHelper.h:114 | `&` with 2^k - 1 is the remainder |
| Bits.XorBits | Linux/src/HttpHelper.cpp:288 | bit k of Xor(a, b) is set if and only if bit k of one of a and b is, and not of both |
| Bits.OrBits | Linux/src/MiscHelper.cpp:45 | the same for or |
| Bits.AndBits | Linux/src/MiscHelper.h:125 | the same for and |
| PackFraming.HeaderRoundTrip | Linux/src/MiscHelper.cpp:45 | packing and unpacking are inverse for every 10-bit flag and 22-bit length |
| PackFraming.HeaderOnto | Linux/src/MiscHelper.h:112-125 | and for every 32-bit word |
| PackFraming.AcceptedIff | Linux/src/MiscHelper.h:110-134 | the header of a flag and a length passes the parser's tests if and only if no flag is configured or it is that one, and the length is between 1 and the limit |
| PackFraming.GetPut | Linux/src/MiscHelper.cpp:47-48 | a DWORD is read back from its bytes in memory |
| PackFraming.ParsedAppend | Linux/src/MiscHelper.h:93-150 | parsing a part, keeping state and rest, and parsing on is parsing the whole |
| PackFraming.ChunksDoNotMatter | Linux/src/MiscHelper.h:152-157 | any split of a stream into receive calls gives the same packets, the same end of parsing at a bad header, and the same rest |
| PackFraming.EndToEnd | Linux/src/TcpPackServer.h:47-57 | from any part of the sent stream exactly the payloads that have arrived whole are delivered, in order, and no header is rejected; from all of it, all of them with nothing left over |
| PackFraming.EndToEndInChunks | Linux/src/TcpPackServer.h:73-83 | the same whatever the pieces in which the bytes arrived |
| PackIo.AddPackHeader | Linux/src/MiscHelper.cpp:26-51 | accepts exactly when the sum modulo 2^32 is between 1 and the limit, and then puts the header of that length in front of the unchanged buffers |
| PackIo.WireIsFrame | Linux/src/MiscHelper.cpp:30-45 | what an accepted send puts on the wire is the frame of its payload if and only if the true sum is below 2^32 |
| PackIo.OverlongSend | Linux/src/MiscHelper.cpp:30-45 | otherwise the receiver gets a shorter packet and reads headers out of the payload |
| PackIo.WireArrivesIff | Linux/src/MiscHelper.cpp:30-45 | the receiver gets exactly the one packet that was sent, and nothing else, if and only if the true sum is below 2^32 |
| PackIo.PackReader.ParsePack | Linux/src/MiscHelper.h:93-150 | takes headers and payloads one by one, each after finding the pause flag clear, and delivers just the payloads among them; it ends at a rejected header or a refused packet, when it finds the flag set, or for lack of bytes |
| PackIo.PackReader.Receive | Linux/src/MiscHelper.h:152-157 | the same on the buffer with the received bytes appended |
| PackIo.PausedTakesNothing | Linux/src/MiscHelper.h:100-103 | a call that finds the flag set at once delivers nothing and leaves buffer and state |
| PackIo.StopsIsPart | Linux/src/MiscHelper.h:100-147 | what such a call delivers and leaves re-parses to what it found; without pauses and refusals it is the whole parse |
| PackIo.ReadAll | Linux/src/TcpPackServer.h:73-83 | chunk after chunk through one reader gives the one-shot parse |
| PackPauseTheorems.PausesDoNotMatter | Linux/src/TcpPackServer.h:110-128 | for every schedule, also with refusals by the listener, until the connection is entered again after a failure: delivered packets, parser state and unread bytes re-parse to the one-shot parse; after a bad header exactly the packets before it were delivered |
| PackPauseTheorems.FailureOnReadIsFinal | Linux/src/TcpServer.cpp:869-878 | it is entered again only after a failure found by an unpause command |
| PackPauseTheorems.NothingStranded | Linux/src/TcpServer.cpp:729-740 | a valid connection that is not paused, with no unpause command queued, being sent or handled and nobody parsing, holds no complete packet |
| PackPauseTheorems.NextKept | Linux/src/TcpServer.cpp:853-899 | every single step keeps the locks, the parse and the attention to unread packets |
| PackPauseTheorems.WhilePaused | Linux/src/TcpServer.cpp:864 | while the flag stays set, and nobody is in the middle of a piece, nothing is read, taken from the buffer, or delivered |
| PackPauseTheorems.WorkComes | Linux/src/TcpPackServer.h:110-138 | every step of a worker comes from a right place: it reads and takes a piece only if not paused, and turns to closing exactly for a refused piece or a failed read |
| PackPauseTheorems.FailureCloses | Linux/src/TcpServer.cpp:869-878 | after a bad header or a refusal the connection is closed, at the latest when nobody is at work any more |
| PackPauseLate.GoodStream | Linux/src/TcpPackServer.h:110-128 | for every stream without a bad header and every schedule, with a listener that refuses nothing: nothing fails, and delivered packets, parser state and unread bytes re-parse to the one-shot parse |
| PackPauseLate.NothingElseDelivered | Linux/src/MiscHelper.h:93-150 | for every stream and schedule, also after a bad header: delivered and unread give what all received bytes give with bad headers skipped |
| PackPauseLate.AllCanBeDelivered | Linux/src/TcpServer.cpp:729-740 | for every stream some schedule of pauses and unpause commands delivers all of that |
| PackPauseLate.PausesMatterIff | Linux/src/TcpServer.cpp:736-739 | some schedule delivers other packets than the one-shot parse if and only if the stream has a bad header and the bytes after it still give a packet |
| PackPauseLate.GoesOnIff | Linux/src/TcpServer.cpp:736-739 | from a reachable valid state after a bad header, not entered again yet and with threads free: a continuation delivers more if and only if a thread stands between the release of csIo and AddFreeSocketObj |
| PackPauseLate.LateDelivery | Linux/src/TcpServer.cpp:736-739 | a run that delivers a packet after a bad header |
| PackEndToEnd.DeliveredInOrder | Linux/src/TcpPackServer.h:47-57 | for every run of the sender's connection whose SendPackets calls are framed, every schedule of the receiver, and any part of the written bytes received: the packets delivered are the first of the payloads in the order of the send lock, nothing fails, and what is unread holds the next of those that arrived whole |
| PackEndToEnd.AllDelivered | Linux/src/TcpPackServer.h:130-138 | when no call is in progress, all accepted bytes have arrived and the receiver is neither paused nor at work, exactly all payloads are delivered |
| PackEndToEnd.WrittenIsStream | Linux/src/TcpServer.cpp:1003-1051 | what the socket took and what was accepted are beginnings of the frames of the calls, in lock order |
| PackEndToEnd.AcceptedIsPacked | Linux/src/MiscHelper.cpp:26-51 | what AddPackHeader accepts is such a framed call if and only if the true sum is below 2^32 |
| Cookies.AdjustDomainFixes | Linux/src/HttpCookie.cpp:287-295 | AdjustDomain is idempotent; its values, other than the empty one, are its fixed points: lower case and no dot in front |
| Cookies.AdjustPathFixes | Linux/src/HttpCookie.cpp:297-321 | AdjustPath is idempotent; its values are empty or start and end with '/', and those are its fixed points |
| Cookies.AdjustDomainIs | Linux/src/HttpCookie.cpp:287-295 | AdjustDomain drops all the dots in front and lowers every letter |
| Cookies.AdjustPathIs | Linux/src/HttpCookie.cpp:297-321 | AdjustPath gives nothing without a '/', and otherwise the path up to its last '/', with one in front |
| Cookies.ScannedIff | Linux/src/HttpCookie.cpp:548-557 | a suffix of the host is tried if and only if an odd number of dots stands before it |
| Cookies.PrefixesIff | Linux/src/HttpCookie.cpp:559-568 | the in-place cuts of the path enumerate exactly its '/'-terminated prefixes, longest first |
| CookieStore.ListDomains | Linux/src/HttpCookie.cpp:542-557 | the pointer loop lists the host and those suffixes in order |
| CookieStore.ListPaths | Linux/src/HttpCookie.cpp:559-568 | the cutting loop lists those prefixes in order |
| CookieStore.CookieMgr.GetCookies | Linux/src/HttpCookie.cpp:532-579 | fails exactly if a string does not adjust, and otherwise collects domain by domain and path by path, keeping names already found |
| CookieStore.CookieMgr.MatchCookiesNoLock | Linux/src/HttpCookie.cpp:727-744 | adds the unexpired, allowed cookies of one domain and path whose names are new |
| CookieQuery.GetCookiesIsScan | Linux/src/HttpCookie.cpp:157-170 | on hosts with odd runs of dots: a name is found if and only if some unexpired stored cookie of it matches, and the one found has the longest matching domain and then path among all of them |
| CookieQuery.BestIsUnique | Linux/src/HttpCookie.cpp:157-170 | there is only one such cookie |
| CookieQuery.EvenRunMisses | Linux/src/HttpCookie.cpp:548-557 | after an even run, a one-cookie store whose cookie matches is answered with nothing |
| CookieQuery.ScanAgreesIff | Linux/src/HttpCookie.cpp:532-579 | agreement with the scan for all stores, paths and queries holds if and only if all inner runs of dots are odd |
| CookieQuery.RemovalIsInvisible | Linux/src/HttpCookie.cpp:655-700 | removing expired cookies changes no answer at that time or later |
| CookieQuery.ReturnedLives | Linux/src/HttpCookie.cpp:727-744 | every cookie returned is transient or expires after the time of the query, and is allowed by the request's http and secure flags |
| CookieStore.MadeLives | Linux/src/HttpCookie.h:80-99 | a cookie made with a maximal age is admitted to queries for exactly that long: always with a negative age, never with age 0 |
| CookieStore.CookieMgr.SetCookie | Linux/src/HttpCookie.cpp:581-603 | refuses an invalid cookie; otherwise is the flat map's set, keeping every cookie filed under its own adjusted domain and path |
| CookieStore.CookieMgr.SetCookieNoLock | Linux/src/HttpCookie.cpp:746-776 | refines the flat set: expired deletes, a transient cookie may bring only a value, else it replaces |
| CookieStore.CookieMgr.DeleteCookie | Linux/src/HttpCookie.cpp:605-619 | deletes exactly that key and says whether it was there |
| CookieStore.CookieMgr.DeleteCookieNoLock | Linux/src/HttpCookie.cpp:778-798 | refines the flat delete |
| CookieStore.CookieMgr.ClearCookies | Linux/src/HttpCookie.cpp:502-515 | clears exactly the keys of the given domain and path |
| CookieStore.CookieMgr.ClearDomainCookiesNoLock | Linux/src/HttpCookie.cpp:621-653 | refines the flat clear in all four cases |
| CookieStore.CookieMgr.RemoveExpiredCookies | Linux/src/HttpCookie.cpp:517-530 | removes exactly the expired cookies of the given domain and path |
| CookieStore.CookieMgr.RemoveExpiredCookiesNoLock | Linux/src/HttpCookie.cpp:655-668 | refines the flat removal |
| CookieStore.RemoveDomainExpired | Linux/src/HttpCookie.cpp:670-683 | the same for one domain |
| CookieStore.RemovePathExpired | Linux/src/HttpCookie.cpp:685-700 | collects, then erases, exactly the expired cookies of one set |
| CookieStore.SetThenGet | Linux/src/HttpCookie.cpp:746-776 | after a set, the key has the new value or is gone, other keys are as before, and the filing is kept |
| CookieStore.SetTwice | Linux/src/HttpCookie.cpp:746-776 | setting again changes nothing |
| CookieStore.CookieMgr.LoadFromFile | Linux/src/HttpCookie.cpp:366-440 | for any text, the loop stores what the line-by-line reading says: a cookie of a group that was looked up is inserted unless its key is stored, one before any group is looked up is set; it fails at the first malformed line |
| CookieStore.CookieMgr.SaveToFile | Linux/src/HttpCookie.cpp:442-500 | writes, in some order, groups that list all living persistent cookies and no others |
| CookieText.AtoiPrint | Linux/src/HttpCookie.cpp:872-879 | numbers are read back as printed |
| CookieText.TokensOfLine | Linux/src/HttpCookie.cpp:855-863 | the tokens of a line are its fields |
| CookieText.FgetsLine | Linux/src/HttpCookie.cpp:379-389 | a line that fits the buffer is read whole |
| CookieFormat.DomainLineBack | Linux/src/HttpCookie.cpp:815-845 | a domain line is read back |
| CookieFormat.CookieLineBack | Linux/src/HttpCookie.cpp:847-892 | a cookie line is read back, also one with an empty value written as a blank |
| CookieFile.RoundTrip | Linux/src/HttpCookie.cpp:366-500 | loading a saved file into an empty store, at that time or later, gives exactly the persistent cookies still alive, whatever the order of writing |
| CookieFile.SaveThenLoad | Linux/src/HttpCookie.cpp:366-500 | the two methods together; saving changes nothing |
| CookieFile.LoadKeepsFiled | Linux/src/HttpCookie.cpp:389-427 | loading any text keeps a well-filed store well filed if and only if no well-formed living cookie line stands before the first domain line and the first malformed line |
| CookieFile.LoadReplacesIff | Linux/src/HttpCookie.cpp:410-425 | loading any text keeps every stored cookie as it is if and only if there is no such line, or its key is not stored, or is stored with the same cookie |
| CookieFile.StrayCookie | Linux/src/HttpCookie.cpp:402-425 | a file of one cookie line files the cookie under an empty domain, and replaces a stored one |
| DyingSweep.DueIff | Linux/src/HttpServer.cpp:160 | an entry is due if and only if the delay has passed and its age modulo 2^32 is below 2^31 |
| DyingSweep.FreshIsNotDue | Linux/src/HttpServer.cpp:100 | an entry made during a sweep is not due in it |
| DyingSweep.HttpServer.Release | Linux/src/HttpServer.cpp:88-103 | queues a connection once |
| DyingSweep.HttpServer.Turn | Linux/src/HttpServer.cpp:160-195 | on an answer above 0 the popped entry is queued again and nothing is disconnected; on one of at most 0 its connection is disconnected and the entry destroyed; with no answer it is destroyed; the measure falls unless the loop has come full circle |
| DyingSweep.HttpServer.KillDyingConnection | Linux/src/HttpServer.cpp:152-197 | terminates for any answers and any releases meanwhile; disconnects exactly the connections answered with a number of at most 0, in order; no entry is lost or doubled; at the end the queue is empty, or its front is not due, or all in it were seen with data or came meanwhile |
| Base64.EncodeBoundIff | Linux/src/SocketHelper.cpp:761-764 | the guessed length is the true one if and only if it fits a DWORD |
| Base64.DecodeBoundIs | Linux/src/SocketHelper.cpp:766-780 | the guessed length of what an encoding decodes to is exact, with and without padding |
| Base64.CodesAreNotPad | Linux/src/SocketHelper.cpp:832-856 | the code of a sextet maps back to it, and is not '=' |
| Base64.MapIsCode | Linux/src/SocketHelper.cpp:832-856 | a byte that maps to a sextet is its code |
| Base64.MapKinds | Linux/src/SocketHelper.cpp:832-856 | the table tells codes, '=', the three white-space bytes and everything else apart |
| Base64.BoundIsEnough | Linux/src/SocketHelper.cpp:766-780 | white space only makes the guessed length larger |
| Base64.CodesAreAlphabet | Linux/src/SocketHelper.cpp:784 | the codes are the alphabet of RFC 4648, in its order |
| Base64.Encode | Linux/src/SocketHelper.cpp:782-828 | writes the encoding, or refuses a short buffer with the length needed and writes nothing |
| Base64.Decode | Linux/src/SocketHelper.cpp:830-904 | for an encoding, padded or not, with any white space in it: gives back the bytes if and only if the guessed length is right, and refuses a short buffer; a text with a foreign byte is refused |
| Base64.RoundTrip | Linux/src/SocketHelper.cpp:782-904 | encoding, stripping or not, and decoding gives the same bytes |
| WebSocket.HToN64Reverses | Linux/src/SocketHelper.cpp:384-387 | HToN64 lays a number out with its highest byte first |
| WebSocket.WordIs | Linux/src/HttpHelper.cpp:257-271 | the bit fields of the first word do not overlap |
| WebSocket.MakeWSPacket | Linux/src/HttpHelper.cpp:242-299 | fails exactly if the body is shorter than the data; otherwise writes the header of section 5.2 of RFC 6455, and every bit of every data byte is then that bit of the payload, changed where the key's is set |
| WebSocket.ReadBack | Linux/src/HttpHelper.cpp:257-281 | reading a written header by section 5.2 gives back fin, rsv, opcode, mask and length, whatever follows |
| WebSocket.ShortestForm | Linux/src/HttpHelper.cpp:266-281 | no header saying the same is shorter |
| WebSocket.PrefixFree | Linux/src/HttpHelper.cpp:266-281 | no header is the beginning of another |
| WebSocket.MaskTwice | Linux/src/HttpHelper.cpp:283-291 | masking again with the same key restores the payload |
| WebSocket.MaskBits | Linux/src/HttpHelper.cpp:283-291 | each bit of a masked byte is the exclusive or of the payload's and the key's |

## Left out

- TcpConnectionTheorems.NoLostWakeup: accepting, from the slot to AddFD, is one step here; finer, a send command handled before AddFD re-arms a socket that is not registered yet, and AddFD then uses the older events.
- TcpConnectionTheorems.BytesConserved: a write error drops the queue with the connection; nothing is stated about the bytes then queued.
- UdpSendTheorems.NoLostWakeup: an edge-triggered registration made after the socket blocked is taken to report the next room; hard send errors close the server and are left out.
- UdpIndexTheorems.IndexAgrees: detection timers and the reuse of objects are left out.
- SocketPoolTheorems.NoEarlyReuse: the table, ring and queue are used by their atomic operations; the compare-and-swap code inside them and the wrap of the 32-bit clock are not modelled.
- SocketPoolTheorems.NoMistakenClose: connection ids are never reused in the model; the cache's numbering is not part of it. A thread that keeps an address past the destruction of its object finds an invalid object in the model, and freed memory in the code.
- ThreadPoolStop.StopRunsEverything: one Start to Stop cycle, with Stop not called during Start or AdjustThreadCount; Stop with a finite wait, thread cancellation and failures of thread creation are left out.
- WinThreadPoolTheorems.LoopIsAtomic: ATL's CThreadPool is not part of this model; its queue is a FIFO that may refuse a post and drops what is left when it is closed.
- PackPauseTheorems.PausesDoNotMatter: epoll arming is left to the TCP machine; any thread may start handling an event at any time.
- PackPauseLate.PausesMatterIff: a listener that refuses packets is left to PausesDoNotMatter.
- PackEndToEnd.DeliveredInOrder: the channel between the two connections loses and reorders nothing; what has been received is a beginning of what was written.
- PackIo.PackReader.ParsePack: the pause flag and the listener's answers are functions of the call's progress; lengths fit an int because they are at most 22 bits.
- CookieStore.CookieMgr.SetCookie: one clock reading per operation; FromString, ToString and date strings are left out, and memory order of the reader-writer lock is not modelled.
- CookieStore.CookieMgr.LoadFromFile: file errors are left out, and numbers do not overflow.
- CookieFile.RoundTrip: stated for names and values without separators and outer white space and for lines within the buffer.
- DyingSweep.HttpServer.KillDyingConnection: releases by other threads happen between the sweep's own accesses to the queue.
- Base64.Decode: other malformed text (misplaced padding, groups cut short by more than their padding) is left out; for a text with a foreign byte the array is taken to hold three bytes for every four.
- Base64.Encode: stated for sources up to 0xBFFFFFFD bytes; the length of a longer encoding does not fit a DWORD (EncodeBoundIff).
- TcpSend.Connection.HandleSend: the listener's sends are a finite list; without the hang-up limit, a listener that sends in every OnSend keeps the loop going for as long as the socket takes bytes.
- WebSocket.MakeWSPacket: stated for bodies below 2^63 and a little-endian machine.
- Memory is sequentially consistent in every machine.
- TcpAgent, the clients, UdpCast, the Pull variants, SSL, zlib, URL coding, the HTTP message parser and the exported C interface are left out.
