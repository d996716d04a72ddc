# A verified model of the reactor TCP library

The library is a reactor: event loops that poll descriptors, run timers and queued functors, and carry TCP
connections, an HTTP server and a connector on top. This project models its core in Dafny and proves what the
core keeps over every run, for every interleaving and every answer of the kernel.

| file | models |
|---|---|
| `Lifecycle.dfy`, `LifecycleStreams.dfy` | connections passing between the base loop, the io loops and other threads: `tcpServer.cpp`, `tcpConnection.cpp`, the dispatch in `channel.cpp`; and the byte streams of all connections over the same runs |
| `TimerQueue.dfy`, `TimerProperties.dfy`, `TimerRequests.dfy`, `TimerQueueObject.dfy`, `TimerKeys.dfy` | `timerQueue.cpp` and `timer.cpp`: the operations and their invariant, what holds over runs, what addTimer was asked for against when timers run, the object method by method, and the index keys as literally written |
| `EventLoop.dfy` | `eventLoop.cpp`: the functor queue, the eventfd and the producing threads |
| `Buffer.dfy` | `buffer.cpp` |
| `TcpConnection.dfy`, `TcpCalls.dfy`, `TcpConnectionObject.dfy` | the output stream of `tcpConnection.cpp`: on its loop thread, with calls from other threads, and the object method by method |
| `HttpRequest.dfy`, `HttpContext.dfy`, `HttpResponse.dfy`, `HttpServer.dfy` | `http/`: request, incremental parser, response printer, session |
| `Registry.dfy` | `poller.cpp`, `epoller.cpp` and the masks of `channel.cpp` |
| `Connector.dfy` | `connector.cpp` |
| `Text.dfy` | searching, trimming and printing of strings |

## How it is built

Each component has a value that is its state, one specification function per source function, and, where the
source is a class, a Dafny class whose methods follow the source line by line and are proved equal to those
functions. The properties are lemmas about the functions and about runs of them. A source `assert`, a misuse of
the kernel interface, a double delete or a use after delete sets a `fault` flag in the state, and the safety
theorems say that `fault` is never set, or exactly when it is.

What the kernel or other threads decide is a parameter or a step: how much `write` takes, what `readv` delivers,
the clock, which channels are ready, where the allocator puts a timer, what `connect` returns, and the
interleaving of threads. Where a theorem says that something can happen, the kernel keeps its contracts: write()
fails once the write side is shut, a closed peer is reported only to a reader, a timer round follows the timerfd.
One access to shared state is one atomic step: a `send()` or `shutdown()` from another thread is split into its
read of `state_`, its write and its push on the loop's queue.

## Where the code departs from its evident intent

The model follows the code, and these are stated as theorems or as the exact condition under which the intended
property holds.

- Timer index keys use the global counter `numCreated()` (timerQueue.cpp:96, 166, 178, 219). `TimerKeys` models the
  keys as written and proves exactly when the assertion at timerQueue.cpp:168 fails, when a cancel finds its timer
  and when a cancel made by a callback is lost (`CancelLostIff`). The other timer files use the timer's own `sequence_`.
- A timer cancelled before its queued `addTimerInloop` has run is not cancelled (`CancelEffectiveIff`).
- A send from another thread may be run after the connection's `connectDestory` and then updates a removed channel
  (`Lifecycle.AlwaysSafe` is the exact condition, `ForeignSendStrays` the input).
- A foreign `shutdown()` can overwrite kDisconnected after the destruction (`OverwrittenIff`).
- `handleClose` leaves `state_` unchanged, so a later `shutdown()` can half-close ahead of buffered bytes, and any
  half-close can overtake a queued foreign send (`HalfCloseAheadIff`); foreign shutdowns can repeat it
  (`HalfCloseRepeatsIff`); a send on the loop thread overtakes queued foreign ones (`OrderKeptIff`).
- A functor queued by the loop's own thread before `loop()` wakes nobody (`SleepsWithWorkIff`), and a `quit()`
  before `loop()` is forgotten (`QuitSeenIff`). `callingPendingFunctors_` is never initialised and is
  taken to start false.
- `Poller` never restores the descriptor of a channel that was disabled (`PollFaithfulIff`), and leaves the index of
  a removed channel in place. `Epoller` re-adds, with an empty mask, a channel that is disabled twice
  (`EpollExactIff`).
- A request line with no space or an unknown method is accepted (`RequestLineAccepts`); any header line without a
  colon ends the header block (`HeadLineStep`); the query keeps its `?`.
- `onMessage` handles one request per read; a second complete request waits for more input (`PipelinedWaitIff`).
- The 32-byte scratch array truncates the Content-Length line of bodies of 10^13 bytes or more (`LengthLineIntact`).
- The connector's assertions fail if a retry timer overtakes the queued `resetChannel` (`FaultsIffCollision`).

## Model

| member | source | states |
|---|---|---|
| Lifecycle.AlwaysSafe | tcpServer.cpp:57-105 | For every interleaving of accepts, queued tasks, channel events, sends and shutdowns from any thread: the state, registration and loop-thread assertions hold, every queued task can run, and each connection is established and destroyed at most once however often handleClose ran, if and only if no foreign send is run with unwritten bytes after its connection's connectDestory |
| Lifecycle.StepKeeps | tcpConnection.cpp:84-107 | Every step, unless it runs such a stray send, keeps each connection in exactly one of four phases, with the matching number of establish, remove and destroy tasks queued on the right loops; a stray send fails an assertion |
| Lifecycle.RegisteredIsAlive | tcpServer.cpp:94-105 | As long as no send has strayed, any channel known to a poller belongs to a connection that the server's map or a queued destruction keeps alive |
| Lifecycle.ReferencedIff | tcpServer.cpp:57-105 | The map or a queued task that holds a shared_ptr refers to a connection if and only if it is not destroyed or a removal of it is still queued |
| Lifecycle.StrayIsUnowned | tcpConnection.cpp:200-232 | A stray send registers the removed channel (or fails Poller's assertion) with nothing left in the map or the queue to remove it |
| Lifecycle.ForeignSendStrays | tcpConnection.cpp:170-182 | The failing input, for every non-empty message: a foreign send queued behind the connectDestory |
| Lifecycle.EventDispatches | channel.cpp:40-91 | Every callback of one handleEvent, in its order, finds the channel registered and its assertions hold, even after the first has asked for the removal and whatever sends and shutdowns the message callback makes in between |
| Lifecycle.EventCloses | channel.cpp:52-84 | One handleEvent runs handleClose once for a hang-up with input and once for a read of nothing, which POLLIN, POLLPRI or POLLRDHUP leads to, and for nothing else |
| LifecycleStreams.StreamsFlow | tcpConnection.cpp:124-232 | Over any run of the whole server, each connection's sendInloop is given exactly the messages sent on it in that order; they are the bytes written followed by the bytes buffered; and as many are written as write() took |
| LifecycleStreams.CallsConserved | tcpConnection.cpp:170-198 | Each foreign send and shutdown that read kConnected becomes one functor: accepted ones have been run, are queued or are between their parts, none is lost or doubled |
| LifecycleStreams.NoShutdownForgotten | tcpConnection.cpp:124-198 | An unclosed connection that is kDisconnecting, with nothing left to write and no shutdown on its way, has been half-closed |
| LifecycleStreams.ReadsWhileOpen | tcpConnection.cpp:84-107 | Read interest is on exactly from a connection's establishment to its first handleClose |
| Lifecycle.Drains | tcpServer.cpp:81-105 | With no new events the queues empty within a bound given by an explicit weight, in any order; then, if no send strayed, exactly the connections ever closed are destroyed, unmapped and unregistered, and kDisconnected unless their state had been overwritten before |
| Lifecycle.TaskShrinks | tcpServer.cpp:94-105 | Running any queued task lowers the weight of all queues and calls no handleClose |
| Lifecycle.NamesDistinct | tcpServer.cpp:60-63 | Generated connection names are equal only for equal numbers, so an erase never hits another connection |
| Lifecycle.CloseKeeps | tcpConnection.cpp:152-159 | handleClose, run any number of times, keeps the invariant and the connection's registration |
| Lifecycle.RemoveKeeps | tcpServer.cpp:94-105 | Removing, with its erase count, queues one destruction for the first remove task and none for the others |
| Lifecycle.OverwrittenIff | tcpConnection.cpp:191-198 | From any state reached without a stray send, a destroyed and kDisconnected connection can be kDisconnecting later if and only if a foreign shutdown has read kConnected and not yet stored |
| Lifecycle.LateShutdownOverwrites | tcpConnection.cpp:191-198 | A reachable run in which that happens |
| Lifecycle.TcpServer.NewConnection | tcpServer.cpp:57-72 | The new name is the server's name, # and the old counter; it is mapped to the connection and the counter grows |
| Lifecycle.TcpServer.RemoveConnectionInLoop | tcpServer.cpp:94-105 | A destruction is due exactly if the name was still mapped; only that name is erased |
| TimerProperties.AlwaysSafe | timerQueue.cpp:92-225 | In every run, with callbacks adding and cancelling at will: no assertion fails, nothing is freed twice or used after being freed, both indexes hold the same timers, and every timer ever created is in exactly one of four places |
| TimerQueues.StepKeeps | timerQueue.cpp:92-225 | Every add, cancel, callback and half of handleRead keeps the invariant over heap, indexes, batch and freed timers |
| TimerQueues.ExpiredSplit | timerQueue.cpp:153-162 | lower_bound of (now, UINTPTR_MAX) cuts the ordered set exactly at expiration <= now |
| TimerQueues.BeginForm | timerQueue.cpp:153-172 | The batch is exactly what has expired; every key of it is found and erased, and the rest stays indexed |
| TimerQueues.CancelForm | timerQueue.cpp:114-132 | A cancel that finds its id unfiles and deletes exactly the timer that id was issued for |
| TimerProperties.RoundRunsDue | timerQueue.cpp:134-151 | A handleRead runs exactly the timers with expiration <= now, once each, in (expiration, address) order, whatever its callbacks do |
| TimerProperties.ResetSettles | timerQueue.cpp:174-188 | After the callbacks exactly the uncancelled repeating timers of the batch are requeued at now + interval, the rest of the batch is freed, and no other timer changes |
| TimerProperties.CancelEffectiveIff | timerQueue.cpp:109-132 | A cancelled timer can run in a later round, with every handleRead called because the timerfd fired, if and only if its addTimerInloop had not run when cancelInLoop did |
| TimerProperties.CancelledNeverRuns | timerQueue.cpp:114-132 | In every continuation of a cancel that took effect the timer runs in no round but the current one |
| TimerProperties.CancelKills | timerQueue.cpp:114-132 | Cancelling an issued id whose timer has reached the loop leaves it freed, or in the batch and marked not to be restarted |
| TimerProperties.CancelIsPrecise | timerQueue.cpp:118-127 | A cancel deletes no timer but its own even if the address has been reused; a stale id deletes nothing |
| TimerProperties.IssuedStays | timerQueue.cpp:92-97 | Every id returned by addTimer stays bound to its own timer until that timer is freed, and never to another |
| TimerRequests.AsAsked | timerQueue.cpp:92-107 | On addTimer's own arguments, in every run: its timer never runs before `when`, once only unless it repeats, then never within the interval of its latest run; a handleRead that finds it queued runs it if and only if it is due by these; and a repeating one is never freed unless its id is cancelled |
| TimerProperties.TimerFdAlwaysCovers | timerQueue.cpp:32-56 | Outside handleRead, whenever timers are queued the timerfd has fired or is armed no later than the earliest expiration, or 100 microseconds after the arming |
| TimerRequests.NoIdleRound | timerQueue.cpp:32-56 | With no cancel since the timerfd was armed, a handleRead called because it fired always finds a timer to run: it is never armed early |
| TimerRequests.LaterAddKeepsFd | timerQueue.cpp:99-107 | Adding a timer that is not the earliest leaves the timerfd as it was |
| TimerKeys.FaultIff | timerQueue.cpp:153-172 | With the keys as written, over adds, expiries, resets, cancels and creations on any thread: an operation fails an assertion if and only if it is getExpired's lookup of a timer after whose last insertion some timer was created anywhere |
| TimerKeys.RunPassesIff | timerQueue.cpp:92-225 | A whole run passes every assertion if and only if every timer looked up by getExpired was inserted after the latest creation |
| TimerKeys.SafeUntilThen | timerQueue.cpp:92-225 | Until that assertion fails, the code as written keeps every live timer in exactly one place, queue and batch point to live timers only, and both indexes have the same size |
| TimerKeys.CancelFindsIff | timerQueue.cpp:92-132 | With the keys as written a cancel deletes a timer if and only if one is queued at the id's address and numCreated() was the same when addTimer returned the id as at that timer's last insertion |
| TimerKeys.CancelLostIff | timerQueue.cpp:92-188 | With the keys as written, when the callbacks of a round cancel a timer of its batch with the id addTimer returned, a repeating timer goes on all the same if and only if some timer was created anywhere in the program since addTimer returned that id |
| TimerKeys.RunRound | timerQueue.cpp:114-143 | In every run, of the timers of the batch, cancelingTimers_ holds exactly the ids cancelled since the callbacks of this round began |
| TimerKeys.CreationBreaks | timer.cpp:14-36 | Creating a timer anywhere makes the expiry of every timer already inserted fail, unless it is inserted again first |
| TimerKeys.TwoTimersFail | timerQueue.cpp:219 | Any two timers on one loop, whatever their times, make the lookup as written fail |
| TimerQueueObject.TimerQueue.constructor | timerQueue.cpp:70-80 | A new queue has no timers and is not in handleRead |
| TimerQueueObject.TimerQueue.ResetTimerFd | timerQueue.cpp:32-56 | Arms the timerfd for the given time, never less than 100 microseconds ahead |
| TimerQueueObject.TimerQueue.NewTimer | timerQueue.cpp:92-97 | Allocates a timer with the next sequence number and returns its id |
| TimerQueueObject.TimerQueue.Insert | timerQueue.cpp:200-225 | Files the timer in both indexes and says whether it became the earliest |
| TimerQueueObject.TimerQueue.AddTimerInLoop | timerQueue.cpp:99-107 | Inserts, and re-arms the timerfd exactly for a new earliest timer |
| TimerQueueObject.TimerQueue.CancelInLoop | timerQueue.cpp:114-132 | Unfiles and deletes a queued timer, or notes the cancel during callbacks |
| TimerQueueObject.TimerQueue.GetExpired | timerQueue.cpp:153-172 | Returns the expired prefix and removes it from both indexes |
| TimerQueueObject.TimerQueue.Reset | timerQueue.cpp:174-198 | Restarts or deletes the whole batch and re-arms for the earliest timer left |
| TimerQueueObject.TimerQueue.HandleRead | timerQueue.cpp:134-151 | Is the run of its round's steps: expire, each callback with what is added and cancelled and the time that passes meanwhile, then reset |
| EventLoops.QueueOrder | eventLoop.cpp:155-203 | In every interleaving, executed functors, the rest of the batch and the pending queue concatenate to the enqueue order |
| EventLoops.NoLostWakeup | eventLoop.cpp:62-80 | If the owner queues nothing before loop(), then whenever the loop polls with functors pending or quit_ set, the eventfd is positive or some thread is between its update and its wakeup |
| EventLoops.SleepsWithWorkIff | eventLoop.cpp:155-168 | The loop sleeps unnotified with work to do exactly when its own thread queued a functor before loop() and no batch has been taken yet, both read off the steps of the run |
| EventLoops.ApplyWakeInv | eventLoop.cpp:155-203 | Every step of the loop and of any producer keeps the wake-up invariant |
| EventLoops.EventFdIff | eventLoop.cpp:114-188 | In every run the eventfd is readable if and only if a wakeup was written since it was last read, and a thread is about to write one if and only if it pushed or quit in a way that asks for it |
| EventLoops.AsleepIff | eventLoop.cpp:62-80 | At poll the loop sleeps if and only if no wakeup was written since the last read and no thread owes one |
| EventLoops.ReadOncePerPoll | eventLoop.cpp:69-80 | The eventfd is read exactly in the iterations whose poll found it readable, before functors run, and loop() returns only once quit_ is set |
| EventLoops.SleepsOnEarlyTask | eventLoop.cpp:164 | A run in which an early functor is slept on |
| EventLoops.QuitSeenIff | eventLoop.cpp:62-80 | In every run, once loop() is entered, quit_ is set if and only if quit() was called after the entry |
| EventLoops.QuitBeforeLoopIsLost | eventLoop.cpp:62-67 | A run in which a quit() made before loop() is forgotten |
| EventLoops.EventLoop.PushBack | eventLoop.cpp:155-168 | Appends under the lock, and wakes exactly for foreign threads or while functors run |
| EventLoops.EventLoop.SetQuit | eventLoop.cpp:114-121 | Sets quit_, and wakes exactly for foreign threads |
| EventLoops.EventLoop.Wakeup | eventLoop.cpp:170-178 | Adds one to the eventfd, which never overflows |
| EventLoops.EventLoop.DoPendingFunctors | eventLoop.cpp:190-203 | Runs exactly the functors pending at the swap, in order; what any thread pushes after the swap is pending afterwards, in order |
| Buffers.MakeRoomFits | buffer.cpp:97-102 | Both branches keep the readable bytes and leave room; the assertion of the left move holds; a grown buffer has size < readable + 2*len + 8 |
| Buffers.CapacityBounded | buffer.cpp:53-125 | Over any run the storage stays within its initial size or twice the peak contents plus 8 |
| Buffers.GrowsIff | buffer.cpp:178-192 | Room is made by growing if and only if contents, request and the eight-byte prefix do not fit the storage |
| Buffers.PrependRoom | buffer.cpp:119-125 | Without prepends, every run keeps at least eight bytes of room in front of the contents |
| Buffers.ReadIsAppend | buffer.cpp:137-162 | A two-segment read leaves the same layout as appending the bytes read |
| Buffers.PrependUndoesRetrieve | buffer.cpp:53-57 | Prepending as much as was retrieved restores the layout |
| Buffers.Buffer.constructor | buffer.cpp:16-24 | A new buffer is empty with 1024 bytes writable and 8 prependable |
| Buffers.Buffer.MakeSpace | buffer.cpp:178-192 | Keeps the bytes, by growing or by the overlapping move to the left |
| Buffers.Buffer.EnsureWritableBytes | buffer.cpp:97-102 | Keeps the bytes and leaves room for len more |
| Buffers.Buffer.Append | buffer.cpp:85-90 | Contents become the old contents followed by the argument |
| Buffers.Buffer.Prepend | buffer.cpp:119-125 | Contents become the argument followed by the old contents |
| Buffers.Buffer.Retrieve | buffer.cpp:53-65 | Drops exactly len bytes from the front |
| Buffers.Buffer.ReadFd | buffer.cpp:137-162 | The bytes delivered into both segments end up at the end of the contents, in order; an error changes nothing |
| Buffers.Buffer.FindCRLF | buffer.cpp:195-200 | Finds the first CR LF of the contents |
| Buffers.Buffer.RetrieveAsString | buffer.cpp:73-78 | Returns all the contents and leaves the buffer empty |
| Buffers.Buffer.Swap | buffer.cpp:26-31 | Exchanges contents and layout |
| TcpCalls.StreamInOrder | tcpConnection.cpp:124-150 | In every run, with calls from any thread, partial or failed writes and closes: bytes written followed by bytes buffered are the messages sendInloop took, in order; these and the queued ones are every message placed, each exactly once; no written byte is taken back |
| TcpCalls.OrderKeptIff | tcpConnection.cpp:170-182 | Messages are delivered in the order in which send() placed them if and only if the loop thread never sends while a foreign send is queued |
| TcpCalls.DeliveredInOrder | tcpConnection.cpp:170-232 | In such runs bytes written, buffered and queued are all messages placed, in order |
| TcpCalls.EveryMessagePlaced | tcpConnection.cpp:170-182 | Every message accepted by send(), from whichever thread, is placed for delivery as often as it was accepted or its call is still on its way, and no other is |
| TcpCalls.ClosesCounted | channel.cpp:52-84 | handleClose runs once for each close event and twice for a hang-up with a read of nothing |
| TcpConnections.FlushedBeforeHalfClose | tcpConnection.cpp:191-198 | Before handleClose, for calls on the loop thread, the write side is shut exactly when shutdown was asked for and every accepted byte is written, and once only |
| TcpConnections.LoopThreadRuns | tcpConnection.cpp:234-241 | With closes and destruction too, loop-thread runs shut the write side at most once |
| TcpConnections.NothingBuffered | tcpConnection.cpp:200-232 | While the kernel takes whole messages nothing is ever buffered: what send() accepts is written when it returns |
| TcpConnections.WritesDrain | tcpConnection.cpp:124-150 | Buffered bytes are all written, in however many pieces the kernel takes them, and a pending shutdown then half-closes once |
| TcpCalls.HalfCloseAheadIff | tcpConnection.cpp:124-150 | In any run, a step shuts the write side ahead of bytes accepted by send(), queued and in-flight foreign sends included, if and only if its guard lets it shut while bytes are stranded in the buffer or a foreign send is on its way; bytes are stranded only after handleClose |
| TcpCalls.HalfCloseRepeatsIff | tcpConnection.cpp:124-241 | After a half-close, from when on write() fails, the write side can be shut again if and only if a foreign shutdown is unfinished and its functor can find write interest off: no message queued before it keeps that on between a handleClose and the connectDestory, and none ends the run by coming after the connectDestory |
| TcpCalls.NoneUnfinished | tcpConnection.cpp:191-241 | Once no foreign shutdown is under way or queued there is no more half-close, whatever is buffered or on its way |
| TcpCalls.TwoShutdownsRepeat | tcpConnection.cpp:191-198 | A run in which two foreign shutdowns half-close twice |
| TcpCalls.HalfClosesAheadOfStranded | tcpConnection.cpp:152-159 | For every message, a run in which a shutdown after handleClose strands it |
| TcpCalls.HalfClosesAheadOfCall | tcpConnection.cpp:170-182 | For every message, a run in which the half-close overtakes a foreign send accepted before it |
| TcpConnectionObject.TcpConnection.SendInLoop | tcpConnection.cpp:200-232 | Writes what the kernel takes when nothing is queued, buffers the rest and turns write interest on |
| TcpConnectionObject.TcpConnection.Send | tcpConnection.cpp:170-182 | Accepts the message only while connected: at once on the loop thread, from another thread by queueing sendInloop |
| TcpConnectionObject.TcpConnection.HandleWrite | tcpConnection.cpp:124-150 | Writes from the front of the buffer; when it empties, write interest goes off and a pending half-close is done |
| TcpConnectionObject.TcpConnection.Shutdown | tcpConnection.cpp:191-198 | Goes from connected to disconnecting; on the loop thread it half-closes unless bytes are being written, from another thread it queues that |
| TcpConnectionObject.TcpConnection.RunSend | tcpConnection.cpp:179 | The queued sendInloop takes its message whatever the state has become |
| TcpConnectionObject.TcpConnection.RunShutdown | tcpConnection.cpp:234-241 | The queued shutdownInloop half-closes unless bytes are being written |
| TcpConnectionObject.TcpConnection.RunDestroy | tcpConnection.cpp:95-105 | The queued connectDestory disconnects and drops all interest |
| TcpConnectionObject.TcpConnection.HandleClose | tcpConnection.cpp:152-159 | Drops all interest and keeps the state and the buffered bytes |
| TcpConnectionObject.TcpConnection.ConnectEstablished | tcpConnection.cpp:84-89 | From connecting to connected, with read interest |
| TcpConnectionObject.TcpConnection.ConnectDestroyed | tcpConnection.cpp:95-100 | From an open state to disconnected, with no interest |
| HttpRequests.MethodTable | http/httpRequest.cpp:27-75 | setMethod and methodToString are inverse, and no other spelling is a method |
| HttpRequests.HttpRequest.AddHeader | http/httpRequest.cpp:108-122 | The field is what precedes the colon and the value what follows it, trimmed on both sides |
| HttpRequests.HttpRequest.SetMethod | http/httpRequest.cpp:27-45 | Succeeds exactly for the spelling of a method |
| HttpRequests.HttpRequest.GetHeader | http/httpRequest.cpp:124-133 | The stored value, or the empty string |
| HttpRequests.HttpRequest.Swap | http/httpRequest.cpp:140-149 | Exchanges every field |
| Text.TrimPadded | http/httpRequest.cpp:112-119 | Trimming recovers a trimmed value from any white space around it |
| HttpContexts.RequestLineAccepts | http/httpContext.cpp:101-138 | A line is accepted if and only if it is a well-formed request line or does not begin with a method and a space |
| HttpContexts.OddLineSetsNothing | http/httpContext.cpp:101-138 | A line accepted without being well-formed sets nothing but the method, to none |
| HttpContexts.RejectedLineSets | http/httpContext.cpp:107-137 | A line rejected for its version has set method, path and query; one without a second space only the method |
| HttpContexts.ChunkingIrrelevant | http/httpContext.cpp:41-99 | However a request is cut into chunks, parser state, request (receive time aside), leftover bytes and verdict equal those of parsing the concatenation at once |
| HttpContexts.ParseExtend | http/httpContext.cpp:41-99 | Parsing, then parsing with more bytes, equals parsing with the bytes there from the start |
| HttpContexts.RejectedLineStable | http/httpContext.cpp:54-64 | Re-parsing a rejected line that stayed in the buffer changes nothing |
| HttpContexts.HeadLineStep | http/httpContext.cpp:71-92 | A header line with a colon adds a header and any other line completes the request |
| HttpContexts.HeadersRoundTrip | http/httpContext.cpp:71-92 | A printed header block with any optional white space parses back to its headers and leaves exactly what follows it |
| HttpContexts.RequestRoundTrip | http/httpContext.cpp:41-138 | A well-formed request (sections 3.1.1 and 3.2 of RFC 7230) parses back to its method, path, query, version and headers |
| HttpContexts.HttpContext.ProcessRequestLine | http/httpContext.cpp:101-138 | Does to the request, and answers, what the line's specification says |
| HttpContexts.HttpContext.ParseRequest | http/httpContext.cpp:41-99 | Terminates, and state, request, flag and leftover bytes are those of the specification; every iteration that goes on consumes bytes |
| HttpContexts.HttpContext.Reset | http/httpContext.cpp:23-29 | Back to the request line with an empty request |
| HttpResponses.LessOrder | http/httpResponse.cpp:71 | The order in which headers are printed is a strict total order |
| HttpResponses.PutIsUpdate | http/httpResponse.cpp:43-46 | Setting a header keeps the printing order and updates exactly that key |
| HttpResponses.LengthLineIntact | http/httpResponse.cpp:66 | The Content-Length line is printed whole if and only if the body is shorter than 10^13 bytes |
| HttpResponses.StatusIntact | http/httpResponse.cpp:56 | The start of the status line is printed whole if and only if the code is below 10^21 |
| HttpResponses.StatusLineFirst | http/httpResponse.cpp:53-59 | A printed response begins with a line that reads back (section 3.1.2 of RFC 7230) as HTTP/1.1, its code and its message, followed by the header block |
| HttpResponses.ResponseRoundTrip | http/httpResponse.cpp:53-83 | The printed header block parses back to the connection headers overridden by the response's own, leaving exactly the body, whose length is the Content-Length announced |
| HttpResponses.HttpResponse.AppendToBuffer | http/httpResponse.cpp:53-83 | Appends status line, connection headers, own headers in key order, blank line and body |
| HttpResponses.HttpResponse.AddHeader | http/httpResponse.cpp:43-46 | Updates the header map at one key |
| HttpServers.RequestsConserved | http/httpServer.cpp:63-78 | Over any run, requests handed to the application followed by complete requests still buffered are the requests of the whole input stream, in order |
| HttpServers.RepliesInOrder | http/httpServer.cpp:63-95 | From a connected session on, the bytes accepted for sending, and so those written and buffered, are the responses to the requests handled, in order, up to and including the first that closes, or these followed by the 400 once a request line was rejected |
| HttpServers.PipelinedWaitIff | http/httpServer.cpp:63-78 | For every session and read, no complete request is left waiting if and only if the read left at most one to hand over |
| HttpServers.PipelinedRequestWaits | http/httpServer.cpp:63-78 | Of two requests in one read the first is handed over and the second stays buffered |
| HttpServers.ClosingResponseFlushed | http/httpServer.cpp:80-95 | After a response marked close nothing more is accepted, and the write side is shut, once, exactly when the whole response is written |
| HttpServers.BufferedAnswerWritten | tcpConnection.cpp:124-150 | A buffered answer is written out as the socket becomes writable, and a pending shutdown is then done |
| HttpServers.KeptAliveIff | http/httpServer.cpp:80-95 | On bytes: with an application that leaves the flag alone, a well-formed request leaves a fresh session connected if and only if it is HTTP/1.1 and its last Connection field is not close, or HTTP/1.0 and it is Keep-Alive |
| HttpServers.ClosedByEmptyReads | tcpConnection.cpp:109-121 | handleClose runs once for each read of nothing and for nothing else; from the first on the connection is not read again, nor written until something more is sent |
| HttpServers.NotFoundAnswer | http/httpServer.cpp:13-18 | The default callback answers every request with one closing 404 |
| HttpServers.UntouchedAnswer | http/httpServer.cpp:80-95 | A response the application leaves alone reads back as a status line without a code, keep-alive headers and no body |
| HttpServers.BadRequestReads | http/httpServer.cpp:68-72 | The answer to a rejected request reads back as a 400 with no header and no body |
| HttpServers.HttpServer.OnMessage | http/httpServer.cpp:63-78 | Answers 400 and closes on a bad request, answers and resets on a complete one, and always leaves the parser ready to be entered |
| HttpServers.HttpServer.OnRequest | http/httpServer.cpp:80-95 | Sends the printed response and closes exactly if it is marked close |
| HttpServers.HttpServer.HandleRead | tcpConnection.cpp:109-121 | Bytes go through the buffer to onMessage, an empty read closes, an error changes nothing |
| Registry.PollRemoveConsistent | poller.cpp:83-104 | Swap-with-last removal keeps slots and indexes in one-to-one correspondence and every other channel's slot |
| Registry.PollUpdateConsistent | poller.cpp:44-74 | An update keeps the correspondence, and a slot stays muted once its channel was disabled |
| Registry.UpdateForgets | poller.cpp:44-74 | An update forgets what poll reported for that channel and for no other |
| Registry.PollFaithfulIff | poller.cpp:60-73 | poll watches exactly the interested channels, each with its mask, if and only if no channel disabled since its registration is interested again |
| Registry.ReenabledIsNotPolled | poller.cpp:66-72 | A channel enabled again after being disabled is wanted and not polled, but watched by epoll |
| Registry.EpollFaithful | epoller.cpp:82-139 | After any updates and removals every epoll_ctl was legal, and the kernel set holds every interested channel with its mask and no other interest |
| Registry.EpollExactIff | epoller.cpp:82-119 | The kernel set is exactly the interested channels, empty masks included, if and only if each registered channel without interest has been disabled an odd number of times in a row |
| Registry.DisabledTwiceStays | epoller.cpp:88-118 | Disabling a channel twice, as a hang-up followed by a zero read does, puts it back with an empty mask |
| Registry.PollAndEpollAgree | poller.cpp:44-105 | If disabled channels are removed rather than enabled again, both registries watch the same map |
| Registry.ReadySlotsAre | poller.cpp:113-126 | The ready slots are listed in order, each once, none missing |
| Registry.Poller.UpdateChannel | poller.cpp:44-74 | Adds or rewrites exactly the channel's slot; the source's assertions hold |
| Registry.Poller.RemoveChannel | poller.cpp:76-105 | Removes the channel's slot and re-indexes the one moved into it; the removed channel keeps its index |
| Registry.Poller.FillActiveChannels | poller.cpp:113-126 | Returns each ready channel exactly once, in slot order, with its events delivered |
| Registry.Epoller.UpdateChannel | epoller.cpp:82-119 | Issues ADD, MOD or DEL as the kernel demands and keeps the channel's mark in step with the kernel set |
| Registry.Epoller.RemoveChannel | epoller.cpp:121-139 | Leaves the channel unknown to the kernel and to the registry |
| Connectors.FaultsIffCollision | connector.cpp:71-213 | In every run an assertion or a descriptor misuse occurs if and only if a retry timer overtakes the queued resetChannel; otherwise one descriptor is open exactly while connecting and every other was closed once or delivered once |
| Connectors.DeliveredIff | connector.cpp:144-173 | Without a collision a descriptor is handed to the callback if and only if it became writable without an error while being connected and wanted; every other one not being connected is closed |
| Connectors.RetriedIff | connector.cpp:84-132 | A step arms a retry, after the current delay, if and only if it reports a failure worth retrying while wanted; a socket is opened exactly by start() and by a retry timer that finds a connection wanted |
| Connectors.ConnectedIff | connector.cpp:144-173 | The connector is connected if and only if its socket once became writable without an error |
| Connectors.PromptIsSafe | connector.cpp:185-213 | No assertion fails if every iteration serves its timers within 500 ms of polling |
| Connectors.OvertakingTimerFails | connector.cpp:134-142 | A run in which the assertion at the start of connecting fails |
| Connectors.RetryDelays | connector.cpp:185-199 | The k-th retry delay is min(500 * 2^k, 30000) ms, whatever happens in between |
| Connectors.StepKeeps | connector.cpp:71-213 | Every step keeps descriptor ownership and the channel/state correspondence, except a collision, which faults |
| Connectors.ConnectorObject.StartInLoop | connector.cpp:71-132 | Opens a socket and connects, retries or closes it, as connect's result demands |
| Connectors.ConnectorObject.Retry | connector.cpp:185-199 | Closes the descriptor, arms the retry and doubles the delay up to its maximum |
| Connectors.ConnectorObject.HandleWrite | connector.cpp:144-173 | Delivers, closes or retries the connected descriptor and queues the channel's reset |
| Connectors.ConnectorObject.HandleError | connector.cpp:175-183 | Removes the channel, queues its reset and retries |

## Left out

- Raw system calls, logging, time formatting and error texts: kernel answers are parameters, the rest has no property here.
- `eventLoopThread.cpp` and `eventLoopThreadPool.cpp`: a new connection may go to any loop.
- Reference counting: a connection is alive while the server's map or a queued establish, remove or destroy task refers to it. Queued sendInloop and shutdownInloop functors bind a raw pointer (tcpConnection.cpp:179, 196) and keep nothing alive: Lifecycle.ReferencedIff says from when on the application has to hold the connection for them, and the model assumes that it does.
- TimerProperties.AlwaysSafe: states the intended design, with the timer's own sequence_ as key; for the keys as written TimerKeys.SafeUntilThen and TimerKeys.RunPassesIff hold instead.
- TimerQueues.StepKeeps: with the timer's own sequence_ as key; does not model overflow of the 64-bit timer counter or of timestamps.
- TimerQueues.BeginForm: with the timer's own sequence_ as key; TimerKeys.FaultIff says when the lookup as written finds it.
- TimerQueueObject.TimerQueue.NewTimer: the id carries the timer's own number where the source reads numCreated(), which TimerKeys.CancelFindsIff models.
- TimerQueueObject.TimerQueue.GetExpired: erases the keys built from the timer's own number.
- TimerQueueObject.TimerQueue.Insert: files under the timer's own number where the source reads numCreated(); TimerKeys.FaultIff and TimerKeys.CancelFindsIff say what that changes.
- TimerQueueObject.TimerQueue.Reset: looks cancels up by the timer's own number; TimerKeys.CancelLostIff says what the lookup as written loses.
- The assertion in Channel's destructor: Lifecycle.RegisteredIsAlive says which references keep a registered channel alive, not when handleEvent is active.
- User callbacks of a connection: their sends, shutdowns and timer calls are steps of their own between the library's.
- Pointers, `std::set`, `std::map` and `std::vector` other than the byte buffer: values of type map, set or seq in fields that the methods reassign; std::set order is kept, node identity is not.
- `Epoller::fillActiveChannels`: a lookup per event returned by the kernel, with nothing to select.
- The channel's dispatch of POLLERR for a connection: its handler only logs.
- Floating-point intervals: times are integer microseconds, and one clock stands for gettimeofday and CLOCK_MONOTONIC.
- `Buffer::shrink`: it keeps indices into the old vector, so it has no useful contract unless readIndex_ is 8.
- `parseRequest` entered in kGotAll or kExpectRequestBody: the source loops forever there, and HttpServer.OnMessage is proved never to do so.
- `Connector::restart` and a second `start`: one start per connector; destruction of a connector with a queued functor is not modelled.
- `tcpClient.cpp`, `acceptor.cpp` and `socket.cpp`: thin wrappers over the parts modelled and over system calls.
- Registry.Epoller.UpdateChannel: events reported by the kernel for an empty mask (POLLERR, POLLHUP) are not modelled, in either registry.
- Lifecycle.NamesDistinct: does not model overflow of the int connection counter, which takes 2^31 connections.
- TcpConnectionObject.TcpConnection.SendInLoop: the kernel's write is a count taken from the front of the message; errno and SIGPIPE are not modelled.
- HttpResponses.HttpResponse.AppendToBuffer: characters are bytes without NUL, since the source appends C strings.
