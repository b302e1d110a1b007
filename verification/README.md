# Skitai: its protocol machines, verified

This project models the parts of the Skitai application server that keep protocol state, and
proves what they guarantee over every input and every run. `dafny verify dfyconfig.toml`
checks all of it.

Each part comes in two forms. A state machine on values says what one step does, and the theorems
about whole runs are proved about it. Where the program works by updating objects, a class has the
same fields and loops, and each of its methods is proved to take exactly the step of the machine:
its `ensures` equates `View()` afterwards with the step applied to `old(View())`. An exception that
leaves a method is a value in the state. The end of a response catches it; whether anybody catches
another one is left open, and a run goes on from the state it left behind or ends there.

- **HTTP/2 responses.** `Http2Stream` has the frames and an independent reference, the client that
  reassembles one stream by section 8.1 of RFC 7540. `H2Connection` is what the server relies on of
  the h2 library: a log of frames and the windows of section 6.9 of RFC 7540, which SETTINGS may
  make negative. `Http2Producer` cuts one response into frames, `ProducerQueue` is the sorted and
  rotating queue, `PassOrder` whom a pass over it asks, `Priorities` the table of PRIORITY events,
  `Http2Handler` the connection handler with its shutdown machine, `Http2ConnectionHandler` the
  handler object with its queue of producer objects. `Http2Guarantees` and `Http2FlowControl` hold
  the theorems over runs, `Http2Requests` what becomes of a request, `Http2Runs` the runs that go
  wrong.
- **HTTP/2 input.** `FrameReader` is the framing machine that numeric terminators drive, measured
  against a recursive parser. `BodyPath` and `BodyChannel` take a request body from DATA frames
  through the virtual channel and the form collector to the application. `UpgradeHeader` is the
  way of a request through an h2c upgrade.
- **HTTP/1.x responses.** `HeaderList` is the list of reply headers. `Http1Response` has
  `make_pushables`, `push`, `error` and `done`, and as reference the client of section 3.3.3 of RFC
  7230. `Http1Framing` proves where a message ends, `Http1Message` what it says, field by field,
  `Http1Results` what is sent for a result and for an error; `Http1Responder` is the object.
  `Http2Response` is the `done` of HTTP/2.
- **Coroutines.** `AsyncExecutor` is the dispatcher with its program counter, its putters and its
  completions, `ConcurrencyBound` how many coroutines really run at once, `TaskHandover` which
  putter gets which task; `AsyncExecutorThread` the object.

## Where the code does not do what it is for

Each of these is a theorem: a concrete case or an exact condition, with the code kept as it is.

- A window of zero blocks a producer, a negative one does not: the slice bound is negative then, h2
  refuses the frame (`Http2Producer.RefusedIffNegative`), and the octets have left the producer. At
  a window of -n it loses what is at hand but for the last n octets, and so nothing if and only if
  that is n octets or fewer (`Http2Producer.RefusedLoses`). A window is negative exactly when more
  was sent on the stream than the SETTINGS in force and the WINDOW_UPDATE frames allow
  (`Http2FlowControl.NegativeWindowIff`), and a flush is refused exactly when the first producer
  that is asked and moves has a DATA frame for such a stream (`Http2FlowControl.FlushRefusedIff`).
  When that flush is one of `handle_response`, the exception is caught and the connection goes on:
  the client reads a response that looks complete and lacks octets, and the log hook counts them as
  sent (`Http2Runs.ResponseIsTruncated`). That happens to exactly the streams with a refusal that
  lost something (`Http2Guarantees.InterleavingRefinesSequential`), and to none while the peer does
  not shrink its initial window (`Http2FlowControl.RefusalNeedsShrink`).
- Rotating the queue pops an empty list when every queued producer was ended from outside
  (`ProducerQueue.EmptyPopIff`); a client gets there with one SETTINGS frame and one RST_STREAM
  (`Http2Runs.ResetOfStalledRaises`).
- A pass that takes off a producer ended from outside rotates the next one to the end without asking
  it. It is then not asked at all, unless the ended one was the head (`PassOrder.OneEndedAsked`), so
  a pass can send nothing although somebody could (`PassOrder.AbleIsPassedOver`, and from the start
  of a connection `Http2Runs.AbleIsNotAsked`), and a reset puts a later stream before an earlier one
  (`Http2Runs.ResetReorders`).
- `close` returns at once while a close is pending, so a channel lost then leaves the connection
  open; so does an abort of the channel, which calls no `close`. A later flush pushes on no channel:
  exactly when it has something to push (`Http2Guarantees.FlushRaisesIff`). The response to an open
  request then gives its frames to nobody (`Http2Runs.LostChannelIsPushedOn`,
  `Http2Runs.AbortedChannelIsPushedOn`), and `reset_stream` raises
  (`Http2Runs.ResetOnNoChannelRaises`); one request leads there (`Http2Runs.WaitsIsReachable`).
- A flush sends the GOAWAY of a pending close exactly when there is nothing else to do as it begins
  (`Http2FlowControl.FlushSendsGoawayIff`), so the one that sends the end of the last response does
  not, and it clears `_has_sendables`, which is what the channel asks before it flushes again
  (`Http2FlowControl.LastFlushLeavesGoaway`, and from the start of a connection
  `Http2Runs.GoawayIsLeft`). One flush more, and it is sent
  (`Http2FlowControl.DrainedCloseSendsGoaway`).
- `close (last_stream_id = 0)` drops nothing: 0 is taken for a missing id
  (`Http2Guarantees.CloseDropsExactly`).
- An h2c upgrade by a request that may have a body, without one, leaves the version at 1.1, and the
  first frame payload is taken for the body (`FrameReader.EmptyPostUpgrade`). The preface check
  looks at its last six octets only.
- The upload limit refuses a body with a Content-Length above it, and no body without a
  Content-Length, whatever its size (`BodyPath.BodyIsConservedIff`, `BodyPath.LimitIsEvaded`).
  Received octets are counted twice (`BodyPath.BodyIsCollected`).
- `done` on HTTP/1.x has no branch for a body when the application set a Content-Encoding, or when
  the response is streaming with more than one part: it raises and sends nothing
  (`Http1Framing.DoneDelivers`, `Http1Framing.ErrorIsDelivered`). A response to HEAD is sent with
  its body. A stream that answers a request still being received is chunked for every client, also
  for one before HTTP/1.1, which cannot read it (`Http1Framing.AnswerWhileReceiving`).
- Items that are not pooled are started uncounted, and their completions are counted: the bound of
  `max_task` + 1 holds if and only if there are no more items, or all before the last are pooled
  (`ConcurrencyBound.BoundHoldsIff`).
- A task is published under the transaction id of the request it is for
  (skitai/wsgiappservice/wasbase.py:162-163), and other puts can have the same one. Everyone gets
  the task of their own coroutine if and only if nobody puts while another putter with the same id
  waits (`TaskHandover.EachGetsItsOwnIff`): otherwise a putter can get the task of another
  (`TaskHandover.SameIdIsCrossed`), or one task replaces the other and a putter waits for ever
  (`TaskHandover.OverwrittenIsLost`).

## Model

| member | source | states |
|---|---|---|
| `Http2Guarantees.InterleavingRefinesSequential` | skitai/handlers/http2_handler.py:77-123 | In every run of requests, responses, flushes, closes, resets, window changes, terminations and losses of the channel, which goes on behind any exception, a client that reads the frames of one stream by section 8.1 of RFC 7540 sees a beginning of the response handed over for it, unless a refused call took octets or the end from the stream; it sees the whole of it (headers, body, trailers) if and only if the log hook was called for the stream and nothing was taken; the hook is called once at most, with the length of the body; a stream without a response has no frame |
| `Http2Guarantees.ChannelSeesBeginning` | skitai/handlers/http2_handler.py:326-344 | The same for what the channel was given so far, which is always a beginning of what h2 was given |
| `Http2Guarantees.OneEndStream` | skitai/handlers/http2_handler.py:58-66 | In every run END_STREAM is on the last frame of a stream whose log hook was called and on no other frame of any stream, in all three shapes of a response; the logged count is the sum of the DATA payloads, and more than it for a stream that a refused call took octets from |
| `Http2Runs.ResponseIsTruncated` | skitai/handlers/http2/response.py:117-127 | For every second response, a run of ten events: the first part of a response is sent, SETTINGS close the windows, the flush of the second response finds the second part ready and is refused, the refusal is caught, SETTINGS open the windows; the client reads a complete response of six octets, and thirteen are logged |
| `Http2Producer.TurnTracks` | skitai/handlers/http2_handler.py:77-123 | One `produce` that is not refused moves octets from the producer to the client and loses none; the producer ends by itself exactly when the client has the whole message, which is exactly when the hook is called |
| `Http2Producer.RefusedIffNegative` | skitai/handlers/http2_handler.py:68-82 | h2 refuses the DATA frame of a `produce` if and only if the producer is open, octets are at hand or its body is ready, and the window is negative; else at most min(16384, window) octets are sent |
| `Http2Producer.SendsExactly` | skitai/handlers/http2_handler.py:96-117 | With a window, and octets at hand or a body that is ready, `produce` sends as many of the octets at hand as 16384 and the window allow and holds the others back; the stream ends with them exactly when they are the last and the body, if it is asked, says it is ready; so no empty frame ends a body that had octets |
| `Http2Producer.RefusedLoses` | skitai/handlers/http2_handler.py:96-123 | What a refused `produce` loses, for every producer and negative window: of the octets at hand all but the last -w, or the end of the stream when there are none; the producer still tracks its message if and only if nothing was lost |
| `Http2Producer.DamagedTurn` | skitai/handlers/http2_handler.py:77-123 | A producer that has lost octets stays damaged; if its stream ends, the client reads a complete-looking response that is too short, and the whole length is logged |
| `Http2Producer.TruncationExample` | skitai/handlers/http2_handler.py:77-123 | That producer at any later window of three or more: the last three octets end the stream, the client reads six, and thirteen are logged |
| `Http2Producer.NegativeWindowIsOverrun` | skitai/handlers/http2_handler.py:81-110 | A producer that has sent three octets, when the initial window has become zero: the slice bound is negative, seven of the ten octets at hand are offered and refused, and gone |
| `Http2Producer.TurnFits` | skitai/handlers/http2_handler.py:108-122 | Each DATA frame of one `produce` fits 16384 octets, the stream window and the connection window at its moment (section 6.5.2 of RFC 7540) |
| `Http2Producer.TurnProgress` | skitai/handlers/http2_handler.py:77-123 | A `produce` that returns a true value lowers the work left; one that does not leaves producer and wire alone |
| `Http2Producer.ProducedIffAble` | skitai/handlers/http2_handler.py:77-123 | With a window that is not negative, `produce` returns a true value if and only if the producer is open, has window, and has headers pending, octets at hand or a body that is ready |
| `Http2Producer.Http2Producer.Produce` | skitai/handlers/http2_handler.py:77-123 | The method on the object, connection and log, in the order of the effects, does what `Turn` says |
| `Http2Producer.Http2Producer.TakePart` | skitai/handlers/http2_handler.py:96-117 | Cut to the window and look-ahead as `NextPart` says: what is cut off is held back, the end of the body is seen one chunk early |
| `Http2Producer.Http2Producer.SendFinalData` | skitai/handlers/http2_handler.py:61-66 | Last DATA frame with or without END_STREAM, trailers, then one log entry; nothing at all when h2 refuses |
| `ProducerQueue.LessIsStrictTotalOrder` | skitai/handlers/http2_handler.py:45-50 | `__lt__` orders by parent, then the heavier stream first, then the older one; it is irreflexive, asymmetric, transitive, and total on distinct streams |
| `ProducerQueue.SortFacts` | skitai/handlers/http2_handler.py:521-524 | The sort is a permutation, and strictly sorted when no stream is queued twice |
| `ProducerQueue.SortIsUnique` | skitai/handlers/http2_handler.py:45-50 | A queue has only one sorted permutation, so the order of equal keys does not matter |
| `Http2Guarantees.EnqueueSorts` | skitai/handlers/http2_handler.py:504-524 | In every reachable state `handle_response` leaves the one permutation of the old queue and the new producer in which parents ascend, weights descend under a parent, and stream ids ascend under a weight; no stream is queued twice |
| `ProducerQueue.PassIsRotation` | skitai/handlers/http2_handler.py:294-305 | A pass over producers that are not ended: the first in queue order that can act does, and stays at the head until it ends, with those tried before it behind the rest; if none can, the queue is as it was and nothing is sent |
| `PassOrder.PassIsDecided` | skitai/handlers/http2_handler.py:294-305 | A pass over any queue, producers ended from outside included: the first one that is asked and moves (open, window not zero, headers or octets to send) decides queue, frames, log, finished streams and exception; if none does, the queue is left rotated and nothing is sent |
| `PassOrder.AllOpenAsked` | skitai/handlers/http2_handler.py:294-305 | With nobody ended, everybody is asked once, in queue order |
| `PassOrder.OneEndedAsked` | skitai/handlers/http2_handler.py:294-305 | With one producer ended and others behind it, the next one is skipped: it is asked last if the ended one was the head, and otherwise not at all, and the head is asked twice |
| `PassOrder.AbleIsPassedOver` | skitai/handlers/http2_handler.py:294-305 | So a pass sends nothing when only the skipped one could, and the ended one was not the head |
| `Http2Runs.AbleIsNotAsked` | skitai/handlers/http2_handler.py:294-305 | For every three responses: with closed windows, a WINDOW_UPDATE for the last stream and, before the flush behind it, a `reset_stream` of the one in the middle; the flush of that sends nothing of the last, which has a window of 100 and its whole response to send |
| `Http2Runs.ResetReorders` | skitai/handlers/http2_handler.py:294-305 | For every three responses: with closed windows, a reset of the first stream and then windows, the last in the order of the queue is sent before the one in the middle |
| `ProducerQueue.PassKeeps` | skitai/handlers/http2_handler.py:294-305 | Any pass, also with producers ended from outside, on damaged streams and with exceptions, keeps the relation between queued producers, clients and log |
| `ProducerQueue.PassIsShaped` | skitai/handlers/http2_handler.py:294-305 | Nobody enters the queue in a pass; who leaves is reported as finished; who is reported has been logged or had been ended before; streams whose producer was ended get no frame |
| `ProducerQueue.EmptyPopIff` | skitai/handlers/http2_handler.py:304-304 | The pass pops an empty list if and only if the queue is not empty and all its producers had been ended by `remove_response` |
| `ProducerQueue.NeverRefused` | skitai/handlers/http2_handler.py:294-305 | No pass is refused while no window is negative |
| `ProducerQueue.PassProgress` | skitai/handlers/http2_handler.py:294-305 | A pass lowers the total work if and only if someone is able to send |
| `Http2FlowControl.QueueDrains` | skitai/handlers/http2_handler.py:322-344 | With bodies that are ready and windows kept positive by the peer, as many flushes as there is work in the queue end every queued response, completely unless it had been damaged before, and damage none |
| `Http2FlowControl.EveryFrameFits` | skitai/handlers/http2_handler.py:77-123 | Every event but a grant of the peer sends only DATA frames that fit min(16384, stream window, connection window) at the moment they are sent (sections 6.5.2 and 6.9.1 of RFC 7540) |
| `Http2FlowControl.WindowsBalance` | skitai/handlers/http2_handler.py:68-75 | In every run the window left plus the octets sent is the window granted, for the connection and for each stream, whatever was raised on the way |
| `Http2FlowControl.NeverOverdrawn` | skitai/handlers/http2_handler.py:77-123 | In every run, exceptions included, all DATA octets together are within the connection credit granted |
| `Http2FlowControl.NegativeWindowIff` | skitai/handlers/http2_handler.py:68-82 | A window is negative if and only if more DATA octets were sent on the stream than the SETTINGS_INITIAL_WINDOW_SIZE in force and the WINDOW_UPDATE frames on it allow |
| `Http2FlowControl.FlushRefusedIff` | skitai/handlers/http2_handler.py:294-344 | In every run, h2 refuses a frame of a flush if and only if the connection is open and the first producer that is asked and moves has a DATA frame to send on a stream that was sent more than its peer allows |
| `Http2FlowControl.RefusalNeedsShrink` | skitai/handlers/http2_handler.py:68-82 | While no SETTINGS frame announces a smaller initial window than the one in force, no window is negative, h2 refuses no frame and no stream loses anything |
| `Http2FlowControl.SendablesAreNoticed` | skitai/handlers/http2_handler.py:337-344 | In every run, whatever was raised on the way, `_has_sendables` holds whenever a producer is queued |
| `Http2Guarantees.ShutdownIsGraceful` | skitai/handlers/http2_handler.py:167-216 | In every run there is at most one GOAWAY; it is sent with no producer queued and no request open, and no HEADERS or DATA frame follows it (section 6.8 of RFC 7540) |
| `Http2FlowControl.FlushSendsGoawayIff` | skitai/handlers/http2_handler.py:307-335 | A flush sends the GOAWAY, when it was not sent before, if and only if, as it begins, the connection is open, a close is pending with a channel, no producer is queued, no request is open and h2 has nothing to send |
| `Http2FlowControl.LastFlushLeavesGoaway` | skitai/handlers/http2_handler.py:326-344 | A flush that sends the last frames of a connection with a close pending leaves the GOAWAY unsent and `_has_sendables` false, so `writable` (skitai/backbone/http_server.py:102) does not flush again |
| `Http2Runs.GoawayIsLeft` | skitai/handlers/http2_handler.py:307-344 | For every response without a body, a run of four events (a request, its flush, a close, the response) after which nothing is queued or open, the GOAWAY is not sent and `_has_sendables` is false |
| `Http2Runs.LastResponseLeavesGoaway` | skitai/handlers/http2_handler.py:307-344 | The same from every quiet state with one open request |
| `Http2FlowControl.DrainedCloseSendsGoaway` | skitai/handlers/http2_handler.py:307-344 | One more flush of a drained connection with a close pending sends it, and only once |
| `Http2FlowControl.PendingCloseEnds` | skitai/handlers/http2_handler.py:167-208 | With every open request answered and windows kept positive, the flushes that drain the queue and one more end a pending close with the GOAWAY on the channel |
| `Http2Guarantees.ClosingStopsAdmitting` | skitai/handlers/http2_handler.py:435-441 | After `close`, `_terminate_connection`, or the loss or abort of the channel `request_acceptable` is false |
| `Http2Guarantees.ClosingIsForGood` | skitai/handlers/http2_handler.py:528-530 | Once `request_acceptable` is false it stays so, and no stream enters `_requests`, in any continuation |
| `Http2Requests.RequestIsAdmittedIff` | skitai/handlers/http2_handler.py:528-530 | A new stream enters `_requests` if and only if there is a channel and no close, pending or done |
| `Http2Requests.EndOfBodyKeepsUnanswered` | skitai/handlers/http2_handler.py:276-291 | The end of its body leaves an unanswered request open, and closes an answered one |
| `Http2Requests.ForceCloses` | skitai/handlers/http2_handler.py:497-526 | After `handle_response` on an acceptable connection `request_acceptable` is false if and only if it was called with `force_close` and the first producer its flush asks, and that moves, has no DATA frame for a negative window; a close is pending then |
| `Http2Requests.PriorityIsThatTold` | skitai/handlers/http2_handler.py:507-513 | In every run the producer of a response has the parent and the weight of the last PRIORITY event on its stream (an exclusive one of another stream takes over its children), and 0 and 1 without one; the entry is deleted |
| `Http2Requests.PeerGoawayCloses` | skitai/handlers/http2_handler.py:210-216 | After a GOAWAY of the peer the connection is closed, and the channel, if there is one, is told to close when it is done |
| `Http2Requests.LostChannelCloses` | skitai/handlers/http2_handler.py:167-187 | The loss of the channel closes the connection, unless a close is pending |
| `Http2Requests.ClosedIsSilent` | skitai/handlers/http2_handler.py:326-329 | Nothing is pushed on the channel of a closed connection, in any continuation |
| `Http2Guarantees.CloseDropsExactly` | skitai/handlers/http2_handler.py:167-187 | `close (last_stream_id)` keeps exactly the open requests up to that id, less those its own flush completes, and all of them if that flush raises; no later stream gets another HEADERS or DATA frame; with 0 it drops nothing |
| `Http2Guarantees.NothingAfterReset` | skitai/handlers/http2_handler.py:458-482 | After the peer reset a stream, no HEADERS or DATA frame is ever sent on it |
| `Http2Guarantees.FlushRaisesIff` | skitai/handlers/http2_handler.py:294-344 | Exactly when a flush of an open connection raises: IndexError if and only if something is queued and all of it was ended from outside; FlowControlError if and only if the first producer that is asked and moves has a DATA frame and a negative window; a push on no channel if and only if the channel is gone, neither of the others is raised, and frames were pending or somebody moves. The first two leave `_has_sendables` as it was |
| `Http2Runs.LostChannelIsPushedOn` | skitai/handlers/http2_handler.py:167-187 | From every quiet state with an open request: after a close and the loss of the channel, the response, whatever it is, is pushed on no channel; the exception is caught, and its frames have left h2 for nobody |
| `Http2Runs.AbortedChannelIsPushedOn` | skitai/backbone/http_server.py:277-292 | The same after an abort of the channel, which only takes it away |
| `Http2Runs.ResetOnNoChannelRaises` | skitai/handlers/http2_handler.py:484-495 | `reset_stream` of the open request raises after a close and the loss of the channel |
| `Http2Runs.WaitsIsReachable` | skitai/handlers/http2_handler.py:528-530 | One request leads to a quiet state with that request open |
| `Http2Runs.ResetOfStalledRaises` | skitai/handlers/http2_handler.py:294-305 | A client that keeps the window of a stream closed and resets the stream makes the next flush raise, for every response, when nothing else is queued |
| `Http2Runs.StalledIsReachable` | skitai/handlers/http2_handler.py:294-305 | One request and one SETTINGS frame lead there |
| `Http2Handler.RunKeeps` | skitai/handlers/http2_handler.py:126-216 | The invariant of the handler after every run; in particular `_has_sendables` holds exactly when a producer is queued, unless the last flush raised before it was set |
| `Http2Handler.FlushIs` | skitai/handlers/http2_handler.py:307-344 | The recursion flush, data_to_send, _data_exhausted, _proceed_shutdown, flush ends, and comes to a pass, a push, and at most one GOAWAY |
| `Http2ConnectionHandler.Handler.DataFromProducers` | skitai/handlers/http2_handler.py:294-305 | The loop over the queue of objects does what the pass says, frames, log, rotation and exceptions included |
| `Http2ConnectionHandler.Handler.DataToSend` | skitai/handlers/http2_handler.py:326-335 | A pass, the removal of finished requests, h2's output, and the shutdown check when there is none |
| `Http2ConnectionHandler.Handler.DataExhausted` | skitai/handlers/http2_handler.py:307-320 | Goes on to the shutdown exactly when a channel is there, no GOAWAY was sent, a close is pending and nothing is left |
| `Http2ConnectionHandler.Handler.ProceedShutdown` | skitai/handlers/http2_handler.py:200-208 | GOAWAY, the `_shutdowned` flag, and the nested flush; the flag is the measure of the recursion |
| `Http2ConnectionHandler.Handler.Flush` | skitai/handlers/http2_handler.py:337-344 | Output is pushed, and `_has_sendables` set from the queue |
| `Http2ConnectionHandler.Handler.Close` | skitai/handlers/http2_handler.py:167-187 | Once only; drops the later streams; flushes, or terminates without a channel |
| `Http2ConnectionHandler.Handler.LoseChannel` | skitai/backbone/http_server.py:281-312 | The channel closes, and closes the handler, which finds no channel |
| `Http2ConnectionHandler.Handler.AbortChannel` | skitai/backbone/http_server.py:277-292 | The channel is taken away without a `close` |
| `Http2ConnectionHandler.Handler.TerminateConnection` | skitai/handlers/http2_handler.py:210-216 | The channel, if there is one, is closed when all is written; no close is pending any more and the connection is closed |
| `Http2ConnectionHandler.Handler.Terminate` | skitai/handlers/http2_handler.py:254-292 | The event that ends the connection, and the flush after the events, which finds it closed |
| `Http2ConnectionHandler.Handler.RemoveResponse` | skitai/handlers/http2_handler.py:471-477 | Ends the first producer of the stream, and only that |
| `Http2ConnectionHandler.Handler.ResetStream` | skitai/handlers/http2_handler.py:484-495 | RST_STREAM and removal unless h2 says the stream is closed; then a flush |
| `Http2ConnectionHandler.Handler.Enqueue` | skitai/handlers/http2_handler.py:504-524 | Priority looked up and forgotten, the new producer object queued in order |
| `Http2ConnectionHandler.Handler.HandleResponse` | skitai/handlers/http2_handler.py:504-526 | Dropped when the request is gone; else queued, flushed, and closed if forced |
| `Http2ConnectionHandler.Handler.Respond` | skitai/handlers/http2/response.py:117-127 | `handle_response` with the exception caught: the connection goes on from what it left behind |
| `Http2ConnectionHandler.Handler.HandleRequest` | skitai/handlers/http2_handler.py:528-530 | A stream is registered once, and only while requests are acceptable |
| `Http2ConnectionHandler.Handler.PriorityUpdated` | skitai/handlers/http2_handler.py:257-266 | The loop over the table in place: afterwards the stream depends on its parent with its weight, whoever depended on that parent depends on the stream if the event was exclusive, and every other entry is as it was |
| `Priorities.ExclusiveTakesOver` | skitai/handlers/http2_handler.py:257-266 | After an exclusive event the stream is alone under its parent, each former sibling depends on it with its weight unchanged, and nothing else changed (section 5.3.1 of RFC 7540) |
| `FrameReader.FramingIsSplitIndependent` | skitai/handlers/http2_handler.py:377-433 | For every state and every way of cutting the octets into reads the machine ends as if they came in one read |
| `FrameReader.ConnectionIsFramed` | skitai/handlers/http2_handler.py:377-433 | For prior knowledge, upgrades without a body and upgrades with one, in every split: the upgraded request gets its body, a preface that does not end in SM CRLF CRLF is refused, and h2 gets exactly the frames a recursive parser finds after it; the terminator stays positive |
| `FrameReader.ParseInvertsSerialize` | skitai/handlers/http2_handler.py:421-427 | The parser gives back the frames that were serialised, for lengths below 2^24 and 31-bit stream ids (section 4.1 of RFC 7540), whatever incomplete frame follows |
| `FrameReader.HeaderIsLaidOut` | skitai/handlers/http2_handler.py:421-423 | How the nine octets of a header are read: 24 bits of length, type, flags, and the stream id without its reserved bit |
| `FrameReader.PrefaceIsAcceptedIff` | skitai/handlers/http2_handler.py:409-413 | Of 24 octets, or of six, those are accepted that end in SM CR LF CR LF |
| `FrameReader.WrittenIsRead` | skitai/handlers/http2_handler.py:391-433 | So a client that writes the preface of section 3.5 of RFC 7540, its last six octets for prior knowledge, and frames has them handed to h2, in every split, for all three starts, and the body of an upgraded request before them goes to the request |
| `FrameReader.EmptyPostUpgrade` | skitai/handlers/http2_handler.py:395-404 | After the upgrade of a request that may have a body and has none the version stays 1.1: h2 gets the frames before the first one with a payload, so it gets all of them if and only if none has a payload |
| `FrameReader.Http2FrameReader.HandleRead` | skitai/handlers/http2_handler.py:377-433 | asynchat's loop over one read, with the two methods below it, is the machine |
| `FrameReader.Http2FrameReader.FoundTerminator` | skitai/handlers/http2_handler.py:391-433 | All five branches on the fields of the object, errors included |
| `BodyPath.BodyIsCollected` | skitai/handlers/collectors.py:29-51 | For every Content-Length, limit and split into DATA frames with any padding: a length above the limit is refused with 413, one below -1 and a body without a length over the limit raise ValueError, and the application is not called; otherwise it is called exactly once, with the octets the length admits, and `rbytes` counts these on top of the frames that brought them, padding included, whose lengths are kept in order |
| `BodyPath.BodyIsWholeIff` | skitai/handlers/collectors.py:20-51 | For every Content-Length and limit: the application gets the whole body if and only if there is no length and the body is within the limit or there is none, or the length is -1, or it is within the limit and covers the body |
| `BodyPath.BodyIsConservedIff` | skitai/handlers/http2_handler.py:528-575 | With a Content-Length equal to the length of the body, or with none, the whole body is handed over once if and only if there is no length or it is within the limit, and otherwise nothing is: a request without a length gets the length -1, which passes every limit |
| `BodyPath.LimitIsEvaded` | skitai/handlers/wsgi_handler.py:115-136 | Three octets and a limit of one: announced they are refused, unannounced they are delivered |
| `BodyPath.DelimiterIsFound` | skitai/handlers/http2/vchannel.py:24-55 | After the body CR LF CR LF is looked for where it begins first |
| `BodyPath.PrefixIsLongest` | skitai/handlers/http2/vchannel.py:24-55 | and the longest beginning of it at the end of the buffer is kept back |
| `BodyChannel.HttpRequest.MakeCollector` | skitai/handlers/wsgi_handler.py:115-142 | No length: the collector is given the limit; a length above the limit: 413 and no collector; else the collector starts |
| `BodyChannel.DataChannel.SetData` | skitai/handlers/http2/vchannel.py:28-33 | Data is queued, counted and read |
| `BodyChannel.DataChannel.HandleRead` | skitai/handlers/http2/vchannel.py:24-55 | `recv`, and asynchat's loop with a count, no terminator, or the delimiter it waits for after the body, whose beginnings it keeps back |
| `BodyChannel.DataChannel.StreamEnded` | skitai/handlers/http2_handler.py:280-286 | A body without a length, or shorter than announced, is completed when the stream ends |
| `BodyChannel.FormCollector.StartCollect` | skitai/handlers/collectors.py:29-32 | Length 0 completes at once; else the terminator is set from the length |
| `BodyChannel.FormCollector.CollectIncomingData` | skitai/handlers/collectors.py:34-38 | Counted first, refused when too large, else appended |
| `BodyChannel.FormCollector.FoundTerminator` | skitai/handlers/collectors.py:40-51 | The collector is detached and the application called with the body, or with none when it is empty |
| `HeaderList.CaseIsFolded` | skitai/backbone/http_response.py:99-128 | Names are compared with their letters in lower case and nothing else changed |
| `HeaderList.DeletedOnly` | skitai/backbone/http_response.py:112-124 | `delete` removes every field of the name in any case, and no other |
| `HeaderList.PutIsOnly` | skitai/backbone/http_response.py:126-128 | `update` leaves one field of the name, with the new value |
| `HeaderList.ReplyHeaders.Delete` | skitai/backbone/http_response.py:112-124 | The search that starts over after each removal does that on the list in place |
| `HeaderList.ReplyHeaders.Has` | skitai/backbone/http_response.py:99-101 | True exactly when a field has the name, in any case |
| `Http1Message.DoneSends` | skitai/backbone/http_response.py:346-521 | For every response and request: which of the two exceptions `done` raises, and else version, code, body, closing of the connection and next receiver of the one message it sends, and the values of every field in it: Connection, Content-Length, Transfer-Encoding, Content-Encoding and Content-Type as described there, and all others as the application set them |
| `Http1Message.ClientDecodes` | skitai/backbone/http_response.py:427-484 | A compressed body is in a coding the client accepts and named by Content-Encoding: a client that decodes by that field has the body that was pushed |
| `Http1Message.DoneIsDone` | skitai/backbone/http_response.py:346-354 | Without a channel nothing is sent; a second `done` does nothing |
| `Http1Framing.DoneDelivers` | skitai/backbone/http_response.py:346-521 | `done` either raises and sends nothing, exactly when no branch assigns the outgoing producer or a Content-Length is not a number, or sends one message and hands the channel on; a client that determines the body length by section 3.3.3 of RFC 7230 reads just the body sent, whatever follows on the connection, if and only if `SelfDelimiting` holds: a response to HEAD or with a 1xx code has no body; else there is none, or it is chunked and the client knows HTTP/1.1, or compressed, or a stream whose own transfer coding is not chunked and the connection is closed, or every Content-Length the application set is right, or there is none and the connection is closed |
| `Http1Framing.AnswerWhileReceiving` | skitai/backbone/http_response.py:409-424 | A stream that answers a request whose collector is alive: whatever fields the application set, it is read whole if and only if the client knows HTTP/1.1, and the request keeps the channel with its terminator |
| `Http1Framing.ResultIsDelivered` | skitai/utility.py:86-160 | Whatever an application returns, except streaming parts and framing or encoding fields of its own, is sent in one message that says where it ends, with all of its octets |
| `Http1Framing.GatherKeeps` | skitai/utility.py:103-152 | The parts are the octets of the result in order, and the Content-Length total is theirs while it is known |
| `Http1Framing.ErrorIsDelivered` | skitai/backbone/http_response.py:302-316 | `error` replaces what was pushed and is read whole by the client, whatever fields the application had set and whatever type the page has; `done` raises in it if and only if the response is streaming or has a Content-Encoding, and the error page is not empty |
| `Http1Results.ResultIsPushed` | skitai/utility.py:86-160 | For every result: the exception it raises, and else the parts pushed in order, the streaming flag, and every field: the type is that of the last API object, else the one the application set, else text/html; the length is that of the parts when nothing was pushed before and none is a producer |
| `Http1Results.ResultIsDecoded` | skitai/utility.py:86-160 | A client that reads the message and decodes it by Content-Encoding has the octets of the result |
| `Http1Results.ErrorIsTyped` | skitai/backbone/http_response.py:245-316 | An error page is sent with its code and type: HTML for a client that accepts it and for 406, else as the application has rendered it, else XML or JSON; with `push_only` it is pushed and nothing is sent |
| `Http1Framing.OneHead` | skitai/backbone/http_response.py:302-346 | Any sequence of push, error, done, field changes and results sends at most one final head, and none before `done` |
| `Http1Responder.Responder.Done` | skitai/backbone/http_response.py:346-521 | The method with its branches over version, Connection, framing, live collector and compression is the function `Done` |
| `Http1Responder.Responder.SendStream` | skitai/backbone/http_response.py:409-424 | The branch of a single stream: chunking, and who receives next, by the collector and the upgrade |
| `Http1Responder.Responder.WayToCompress` | skitai/backbone/http_response.py:427-450 | Which content coding, by length, type and Accept-Encoding |
| `Http1Responder.Responder.Drain` | skitai/backbone/http_response.py:470-484 | The two loops over the producers feed the compressor everything, in order |
| `Http1Responder.Responder.BuildErrorTemplate` | skitai/backbone/http_response.py:245-300 | The Content-Type of an error page: HTML when asked for or for 406, none by a page of the application, else that of the API object |
| `Http1Responder.Responder.Fail` | skitai/backbone/http_response.py:302-316 | The method `error` is the function `Fail` |
| `Http1Responder.Responder.MakePushables` | skitai/utility.py:86-160 | The loop over the parts of a result, with the fields it sets and the exceptions it raises |
| `Http2Response.HandedIsWellFormed` | skitai/handlers/http2/response.py:48-109 | What is handed over has no Transfer-Encoding and no Connection field (section 8.1.2.2 of RFC 7540); a Content-Length that was the length of the body is that of the DATA octets or gone (section 8.1.2.6) |
| `Http2Response.DoneHandsOver` | skitai/handlers/http2/response.py:36-122 | For every response: the exception of `int`, and else the body handed over, compressed or not, and the values of every field: those of the application, Location and cookies among them, less the hop-by-hop ones, and with the length and coding as described |
| `Http2Response.HandedIsDecoded` | skitai/handlers/http2/response.py:60-95 | A client that decodes the DATA octets by Content-Encoding has the body that was pushed, in a coding it accepts |
| `Http2Response.ResultIsHandedOver` | skitai/handlers/http2/response.py:48-122 | The result of an application is handed over once and whole, with a matching Content-Length or none |
| `AsyncExecutor.ConcurrencyIsBounded` | skitai/tasks/executors.py:207-229 | In every interleaving, completions that beat the increment included, the coroutines started and unfinished are at most the number of items, and at most `max_task` + 1 and one more for each item before the last that is not pooled |
| `ConcurrencyBound.PeakIsReached` | skitai/tasks/executors.py:207-229 | That is exact: for every list of items there is a run that starts them all and reaches it |
| `ConcurrencyBound.BoundHoldsIff` | skitai/tasks/executors.py:207-256 | No interleaving that starts a given list of items runs more than `max_task` + 1 at once, if and only if there are no more items or all before the last are pooled |
| `ConcurrencyBound.BoundIsReached` | skitai/tasks/executors.py:207-229 | For every `max_task` and u, with u items that are not pooled `max_task` + 1 + u do run at once |
| `ConcurrencyBound.UnpooledBreaksTheBound` | skitai/tasks/executors.py:221-256 | The completion of an item that is not pooled lowers the counter it never raised: with `max_task` 0 two pooled coroutines run at once |
| `AsyncExecutor.CounterIsExact` | skitai/tasks/executors.py:207-256 | `current_tasks` is the number of coroutines started and unfinished, less those that were started unpooled, less the pooled one the dispatcher has submitted and not yet counted; so it is exact at the wait when all are pooled |
| `AsyncExecutor.StartedInOrder` | skitai/tasks/executors.py:207-251 | Coroutines are started in the order they were put, each once; the dispatcher stops at the first sentinel, with everything before it started and nothing after |
| `AsyncExecutor.StoppedForGood` | skitai/tasks/executors.py:214-216 | After the sentinel no coroutine is started |
| `AsyncExecutor.EachGetsOneTask` | skitai/tasks/executors.py:227-251 | In every interleaving each `get` returns once at most, to a putter that waited, the task of a started coroutine with the same transaction id; no task is returned twice |
| `TaskHandover.EachGetsItsOwnIff` | skitai/tasks/executors.py:227-251 | For every run, transaction ids repeated or not: from each of its points on, however the threads go on, everyone gets the task of their own coroutine, if and only if nobody puts while another putter with the same id, who put before any sentinel, waits |
| `TaskHandover.OwnForSureIff` | skitai/tasks/executors.py:207-251 | The same for a state: exactly when everyone served so far got their own task, and nobody waits with the id of a task of another that is in `futures` or on its way |
| `TaskHandover.NothingIsLost` | skitai/tasks/executors.py:227-235 | In runs without such a put each published task is in `futures` or was collected by its own putter |
| `TaskHandover.SameIdIsCrossed` | skitai/tasks/executors.py:227-251 | For every two puts with one id, the first ones of an executor: the second putter can get the task of the first |
| `TaskHandover.OverwrittenIsLost` | skitai/tasks/executors.py:227-235 | For every two such puts: when both tasks are published before a `get`, one putter is served and the other one waits for ever, if nothing more is put |
| `AsyncExecutorThread.Executor.Pop` | skitai/tasks/executors.py:207-216 | The wait of the dispatcher, and the sentinel |
| `AsyncExecutorThread.Executor.Count` | skitai/tasks/executors.py:223-225 | The increment, for pooled items |
| `AsyncExecutorThread.Executor.Publish` | skitai/tasks/executors.py:227-229 | The task is published under its transaction id |
| `AsyncExecutorThread.Executor.Done` | skitai/tasks/executors.py:253-256 | The decrement |
| `AsyncExecutorThread.Executor.Get` | skitai/tasks/executors.py:231-235 | The task is taken out |
| `AsyncExecutorThread.Executor.Put` | skitai/tasks/executors.py:248-250 | The item is queued |
| `UpgradeHeader.UpgradeKeepsRequest` | skitai/handlers/http2_handler.py:361-375 | For header lines written "name: value", `upgrade_header` followed by `handle_request` gives the same method and path, and the lines in order with names in lower case, less the three upgrade fields, with all cookies joined in one last line (sections 3.2 and 8.1.2.5 of RFC 7540) |
| `UpgradeHeader.BlockIsRequest` | skitai/handlers/http2_handler.py:528-562 | `handle_request` on a block of HTTP/2: method in upper case, path, a host line in lower case for an authority that is not empty, the fields in order, and all cookies in one last line |
| `UpgradeHeader.NothingIsSaid` | skitai/handlers/http2_handler.py:533-536 | Without pseudo-fields it is GET of "/" |
| `UpgradeHeader.LineIsSplit` | skitai/handlers/http2_handler.py:366-370 | A header line is split at its first ": " |
| `UpgradeHeader.LineIsSplitAtColon` | skitai/handlers/http2_handler.py:366-370 | and without one at its first colon |
| `UpgradeHeader.UpgradeRaisesIff` | skitai/handlers/http2_handler.py:366-370 | The upgrade raises if and only if some header line has no colon |
| `UpgradeHeader.UpgradeHeader` | skitai/handlers/http2_handler.py:361-375 | The loop of the source computes that header block |
| `UpgradeHeader.HandleRequest` | skitai/handlers/http2_handler.py:533-562 | The loop of the source computes that request: pseudo-fields, host from :authority, cookies last |

## Left out

- h2, HPACK and hyperframe: stream states, header compression, CONTINUATION, padding and the contents of GOAWAY; `H2Connection` has the frames and the windows only.
- The FlowControlError after ten seconds without window, and everything else that depends on the clock.
- Threads inside the HTTP/2 handler: each method is one step, and its locks are not modelled.
- What an exception leads to outside the handler: that the channel's `handle_error` (skitai/backbone/http_server.py:349-351) closes the channel is the event of its loss, which may follow or not.
- gRPC streams (skitai/handlers/grpc_stream_handler.py:9-51), which write their HEADERS and DATA to h2 directly, past the producers.
- `globbing_producer` and `composite_producer`: a body is the sequence of non-empty chunks it yields, with or without a `ready` oracle.
- ProducerQueue.PassIsRotation: speaks of queues in which no producer was ended from outside; `PassOrder.PassIsDecided` covers all.
- Http2FlowControl.QueueDrains: assumes that every body is ready and that the peer keeps the windows of queued streams positive in each round.
- Server push, HTTP/3 and QUIC, CONNECT tunnels, TLS and sockets.
- Route lookup: the 404 for a request no handler matches is not modelled.
- FrameReader.ConnectionIsFramed: excludes the upgrade of a request that may have a body and has none, for which `FrameReader.EmptyPostUpgrade` says what happens.
- What the server does after the ValueError of a body that is too large or of a negative length is not modelled, nor is the answer 411 of HTTP/1.x.
- `MultipartCollector`: temporary files, and another way to end a body.
- BodyChannel.HttpRequest.MakeCollector: answers 413 at once; on HTTP/2 `HTTP2DummyCollector` (skitai/handlers/collectors.py:58-83) first reads and drops the body, up to a megabyte of it, and then gives the same answer.
- Header field values are numbers or other texts; a number in a form that only `int` accepts, such as " 12" or "-1", is not told apart from its plain form or from a text.
- The octets of the chunked coding, and gzip and deflate: a chunk is one symbol on the wire, a compressor is any function.
- What a request does with the channel it keeps or is handed: web sockets and proxies. A channel lost between the head of a message and its body cuts the message, which is not modelled.
- Http1Framing.ResultIsDelivered: excludes streaming parts and fields the application set for framing or encoding; `Http1Framing.DoneDelivers` says exactly what happens with those.
- Range requests, byte counts in the log, error templates (the octets of a rendered page are a parameter), ETag and cache fields.
- UpgradeHeader.UpgradeKeepsRequest: is about names that are not empty and hold no colon, as HTTP has them; a name that begins with a colon would be taken for a pseudo-field, and an empty one raises IndexError. The conversion of Content-Length by `int` is not modelled.
- Liveness of `AsyncExecutor.get`: one waiter is notified among several, and only safety is claimed. A coroutine object that is put twice: each put is an item of its own here, and that asyncio does not run a coroutine again is not modelled. A custom response callback that never calls `done` is not modelled.
- Thread and process executors, forking, signals, SMTP, static files, sessions, templates: configuration or input and output.
