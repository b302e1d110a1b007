/** What becomes of a request on HTTP/2: whether it is admitted, the priority of its response, and what
    a response with `force_close`, the end of the body and a GOAWAY of the peer do. */
module Http2Requests {
  import opened Wrappers
  import opened Http2Stream
  import opened H2Connection
  import opened Http2Producer
  import opened ProducerQueue
  import opened Http2Handler
  import opened Http2Guarantees
  import Priorities

  // ----- admission -----------------------------------------------------------------------------------

  /** A new stream becomes an open request exactly when there is a channel and no close, pending or done. */
  lemma RequestIsAdmittedIff(s: Engine, sid: StreamId)
    requires Inv(s) && s.fault == NoFault && sid !in s.seen
    ensures var s' := Step(s, Request(sid));
            && (sid in s'.requests <==> s.hasChannel && !s.closePending && !s.closed)
            && s'.requests - {sid} == s.requests && sid in s'.seen && s'.conn == s.conn && s'.queue == s.queue
  {
    StepRequest(s, sid);
    hide Step, QueueOk, QuietAfterGoaway;
  }

  /** The end of its body leaves a request open that waits for its response, and closes one that was
      answered. */
  lemma EndOfBodyKeepsUnanswered(s: Engine, sid: StreamId)
    requires s.fault == NoFault
    ensures var s' := Step(s, StreamEnded(sid));
            && (sid !in s.handed ==> s' == s)
            && (sid in s.handed ==> sid !in s'.requests && s' == s.(requests := s'.requests))
            && forall x :: x != sid ==> (x in s'.requests <==> x in s.requests)
  {
    StepIs(s, StreamEnded(sid));
    QuietIs(s, StreamEnded(sid));
    hide Step, QuietStep;
  }

  // ----- force_close ---------------------------------------------------------------------------------

  lemma EnqueueLeaves(s: Engine, sid: StreamId, m: Message)
    requires sid !in s.handed
    ensures var s' := Enqueue(s, sid, m);
            && s'.hasChannel == s.hasChannel && s'.closePending == s.closePending && s'.closed == s.closed
            && s'.fault == s.fault && !AllEnded(s'.queue)
  {
    var (dependsOn, weight) := PriorityOf(s, sid);
    var p := NewProducer(sid, m, dependsOn, weight);
    SortFacts(s.queue + [p]);
    assert p in s.queue + [p];
    assert multiset(s.queue + [p])[p] > 0;
  }

  /** What a flush leaves as it was. */
  predicate SameRest(s: Engine, s': Engine) {
    && s'.hasChannel == s.hasChannel && s'.closePending == s.closePending && s'.closed == s.closed
    && s'.closing == s.closing && s'.priorities == s.priorities && s'.handed == s.handed && s'.seen == s.seen
  }

  lemma AfterPassLeaves(s: Engine, r: Pass)
    ensures SameRest(s, AfterPass(s, r))
  {
  }

  lemma PushLeaves(s: Engine)
    ensures SameRest(s, Push(s))
  {
  }

  lemma FlushLeaves(s: Engine, polls: Polls)
    requires s.fault == NoFault && s.conn.taken <= |s.conn.wire|
    ensures SameRest(s, Flush(s, polls))
  {
    var s1 := AfterPass(s, DataFromProducers(s.queue, s.conn, polls));
    var s2 := s1.(conn := s1.conn.Append(Goaway), shutdowned := true);
    FlushIs(s, polls);
    AfterPassLeaves(s, DataFromProducers(s.queue, s.conn, polls));
    PushLeaves(s1);
    PushLeaves(s2);
    hide Flush, DataFromProducers, AfterPass, Push, ReadyToShutDown;
  }

  /** A response closes the connection for new requests exactly when it is sent with `force_close` and the
      flush that queues it is not refused; without `force_close` everything is as open as before. */
  lemma ForceCloses(s: Engine, sid: StreamId, m: Message, force: bool, polls: Polls, polls': Polls)
    requires Inv(s) && s.fault == NoFault && sid in s.requests && sid !in s.handed && RequestAcceptable(s)
    ensures var s' := HandleResponse(s, sid, m, force, polls, polls');
            RequestAcceptable(s') <==> !force || FlushIsRefused(Enqueue(s, sid, m), polls)
    ensures force && !FlushIsRefused(Enqueue(s, sid, m), polls) ==>
              HandleResponse(s, sid, m, force, polls, polls').closePending
  {
    var s0 := Enqueue(s, sid, m);
    EnqueueKeeps(s, sid, m);
    EnqueueLeaves(s, sid, m);
    CoreTaken(s0);
    hide Flush, Close, Enqueue, FlushIsRefused, Core;
    OpenFlushRaisesIff(s0, polls);
    FlushLeaves(s0, polls);
    FlushKeeps(s0, polls);
    var s1 := Flush(s0, polls);
    CoreTaken(s1);
    if force && s1.fault == NoFault {
      CloseNeverAdmits(s1, 0, polls');
      ClosingPends(s1, polls');
    }
  }

  lemma ClosingPends(s: Engine, polls: Polls)
    requires RequestAcceptable(s) && s.fault == NoFault && s.conn.taken <= |s.conn.wire|
    ensures Close(s, 0, polls).closePending
  {
    FlushLeaves(s.(closePending := true), polls);
    hide Flush;
  }

  /** With a channel, and somebody queued who was not ended, the only exception of a flush is a refusal. */
  lemma OpenFlushRaisesIff(s: Engine, polls: Polls)
    requires Core(s) && s.fault == NoFault && s.hasChannel && !s.closed && !AllEnded(s.queue)
    ensures Flush(s, polls).fault != NoFault <==> FlushIsRefused(s, polls)
  {
    QueueWaits(s);
    CoreTaken(s);
    hide Core, RunPass, Waiting, Flush, DataFromProducers, FlushIsRefused, Deciding;
    PassOf(s, polls);
    FlushFaults(s, polls);
  }

  // ----- the priority of a response ----------------------------------------------------------------------

  /** What the PRIORITY events of a run say about a stream: parent and weight of its last one; an
      exclusive one of another stream takes over its children. */
  function Told(events: seq<Event>, sid: StreamId): Option<(nat, nat)> {
    if events == [] then None
    else
      var before, e := Told(events[..|events| - 1], sid), events[|events| - 1];
      if !e.Priority? then before
      else if e.sid == sid then Some((e.dependsOn, e.weight))
      else if e.exclusive && before.Some? && before.value.0 == e.dependsOn then Some((e.sid, before.value.1))
      else before
  }

  function TableSays(t: Priorities.Table, sid: StreamId): Option<(nat, nat)> {
    var e := Priorities.Find(t, sid);
    if e.Some? then Some((e.value.dependsOn, e.value.weight)) else None
  }

  /** Only PRIORITY events and the responses themselves touch the table. */
  ghost predicate SameTable(s: Engine, s': Engine) {
    && s.handed.Keys <= s'.handed.Keys
    && forall sid :: sid !in s'.handed ==> TableSays(s'.priorities, sid) == TableSays(s.priorities, sid)
  }

  lemma CloseLeavesTable(s: Engine, last: int, polls: Polls)
    requires s.fault == NoFault && s.conn.taken <= |s.conn.wire|
    ensures Close(s, last, polls).priorities == s.priorities && Close(s, last, polls).handed == s.handed
  {
    hide Flush;
    if !s.closed && !s.closePending && s.hasChannel {
      FlushLeaves(DropBeyond(s.(closePending := true), last), polls);
    }
  }

  lemma EnqueueLeavesTable(s: Engine, sid: StreamId, m: Message)
    ensures SameTable(s, Enqueue(s, sid, m))
  {
    forall x | x != sid ensures TableSays(Enqueue(s, sid, m).priorities, x) == TableSays(s.priorities, x) {
      Priorities.FindRemoved(s.priorities, sid, x);
    }
  }

  lemma RespondLeavesTable(s: Engine, sid: StreamId, m: Message, force: bool, polls: Polls, polls': Polls)
    requires Inv(s) && s.fault == NoFault
    ensures SameTable(s, Caught(HandleResponse(s, sid, m, force, polls, polls')))
  {
    hide Flush, Close, Enqueue, Core;
    if sid !in s.handed && sid in s.requests {
      var s0 := Enqueue(s, sid, m);
      EnqueueKeeps(s, sid, m);
      EnqueueLeavesTable(s, sid, m);
      EnqueueLeaves(s, sid, m);
      CoreTaken(s0);
      FlushLeaves(s0, polls);
      FlushKeeps(s0, polls);
      var s1 := Flush(s0, polls);
      CoreTaken(s1);
      if s1.fault == NoFault && force {
        CloseLeavesTable(s1, 0, polls');
      }
    }
  }

  lemma QuietLeavesTable(s: Engine, e: Event)
    requires IsQuiet(e) && !e.Priority?
    ensures QuietStep(s, e).priorities == s.priorities && QuietStep(s, e).handed == s.handed
  {
    hide QuietStep, HandleRequest, Terminate, Regrant, Conn.Append;
    QuietIs(s, e);
    if e.Request? {
      RequestLeaves(s, e.sid);
    } else if e.Terminated? {
      TerminateLeaves(s);
    }
  }

  lemma RequestLeaves(s: Engine, sid: StreamId)
    ensures var s' := HandleRequest(s, sid);
            && s'.priorities == s.priorities && s'.handed == s.handed
            && s'.closed == s.closed && s'.pushed == s.pushed
  {
    var seen := s.seen + {sid};
    if sid in s.seen {
      assert HandleRequest(s, sid) == s;
      hide *;
    } else if RequestAcceptable(s) {
      assert HandleRequest(s, sid) == s.(seen := seen, requests := s.requests + {sid});
      hide *;
    } else {
      assert HandleRequest(s, sid) == s.(seen := seen);
      hide *;
    }
  }

  lemma TerminateLeaves(s: Engine)
    ensures var s' := Terminate(s);
            s'.priorities == s.priorities && s'.handed == s.handed && s'.closed && s'.pushed == s.pushed
  {
  }

  lemma StepLeavesTable(s: Engine, e: Event)
    requires Inv(s) && s.fault == NoFault && !e.Priority?
    ensures SameTable(s, Step(s, e))
  {
    CoreTaken(s);
    hide Step, Flush, Close, HandleResponse, Caught, Core, Inv, RemoveStream, ResetLocally, QuietStep, TableSays;
    StepIs(s, e);
    if e.Respond? {
      RespondLeavesTable(s, e.sid, e.m, e.forceClose, e.polls, e.polls');
    } else if e.Flushing? {
      FlushLeaves(s, e.polls);
    } else if e.Closing? {
      CloseLeavesTable(s, e.last, e.polls);
    } else if e.ChannelLost? {
      CloseLeavesTable(s.(hasChannel := false), 0, []);
    } else if e.PeerReset? {
      RemovalLeavesTable(s, e.sid);
    } else if e.LocalReset? {
      LocalResetLeavesTable(s, e.sid, e.accepted, e.polls);
    } else {
      QuietLeavesTable(s, e);
    }
  }

  lemma LocalResetLeavesTable(s: Engine, sid: StreamId, accepted: bool, polls: Polls)
    requires Inv(s) && s.fault == NoFault
    ensures var s' := Flush(ResetLocally(s, sid, accepted), polls);
            s'.priorities == s.priorities && s'.handed == s.handed
  {
    hide Flush, Core;
    LocalResetKeeps(s, sid, accepted);
    CoreTaken(ResetLocally(s, sid, accepted));
    FlushLeaves(ResetLocally(s, sid, accepted), polls);
  }

  lemma RemovalLeavesTable(s: Engine, sid: StreamId)
    ensures RemoveStream(s, sid).priorities == s.priorities && RemoveStream(s, sid).handed == s.handed
  {
  }

  lemma PriorityIsNoted(s: Engine, e: Event, sid: StreamId)
    requires s.fault == NoFault && e.Priority?
    ensures var before, s' := TableSays(s.priorities, sid), Step(s, e);
            && s'.handed == s.handed
            && TableSays(s'.priorities, sid) ==
               if e.sid == sid then Some((e.dependsOn, e.weight))
               else if e.exclusive && before.Some? && before.value.0 == e.dependsOn then Some((e.sid, before.value.1))
               else before
  {
    StepIs(s, e);
    QuietIs(s, e);
    hide Step, QuietStep;
    var t := if e.exclusive then Priorities.Adopt(s.priorities, e.dependsOn, e.sid) else s.priorities;
    Priorities.FindAssigned(t, Priorities.Entry(e.sid, e.dependsOn, e.weight), sid);
    Priorities.FindAdopted(s.priorities, e.dependsOn, e.sid, sid);
  }

  lemma {:induction false} TableSaysWhatWasTold(events: seq<Event>, sid: StreamId)
    requires sid !in Run(INIT, events).handed
    ensures TableSays(Run(INIT, events).priorities, sid) == Told(events, sid)
  {
    if events != [] {
      var front, e := events[..|events| - 1], events[|events| - 1];
      var s := Run(INIT, front);
      RunKeeps(front);
      StepCatches(s, e);
      hide Step, Inv, TableSays;
      if e.Priority? {
        PriorityIsNoted(Caught(s), e, sid);
      } else {
        StepLeavesTable(Caught(s), e);
      }
      TableSaysWhatWasTold(front, sid);
    }
  }

  /** In every run the response to an open request is queued with the parent and the weight of the last
      PRIORITY event on its stream, and with 0 and 1 when there was none; its entry is forgotten. */
  lemma PriorityIsThatTold(events: seq<Event>, sid: StreamId, m: Message)
    requires var s := Run(INIT, events); sid in s.requests && sid !in s.handed
    ensures var told := Told(events, sid);
            exists p :: p in Enqueue(Run(INIT, events), sid, m).queue && p.sid == sid
                        && (p.dependsOn, p.priority) == if told.Some? then told.value else (0, 1)
    ensures Priorities.Find(Enqueue(Run(INIT, events), sid, m).priorities, sid) == None
  {
    var s := Run(INIT, events);
    TableSaysWhatWasTold(events, sid);
    Priorities.FindRemoved(s.priorities, sid, sid);
    hide Run, Told, Priorities.Find, Priorities.Remove;
    var (dependsOn, weight) := PriorityOf(s, sid);
    var p := NewProducer(sid, m, dependsOn, weight);
    SortFacts(s.queue + [p]);
    assert p in s.queue + [p];
    assert p in Enqueue(s, sid, m).queue;
  }

  // ----- a closed connection ------------------------------------------------------------------------------

  /** After the GOAWAY of the peer the connection is closed, and the channel, if there is one, is told to
      close when it is done. */
  lemma PeerGoawayCloses(s: Engine)
    requires s.fault == NoFault
    ensures var s' := Step(s, Terminated);
            && s'.closed && !s'.closePending && (s'.closing <==> s.closing || s.hasChannel)
            && s'.conn == s.conn && s'.pushed == s.pushed && s'.queue == s.queue && s'.requests == s.requests
            && (s'.hasSendables <==> s.queue != [])
  {
    StepIs(s, Terminated);
    QuietIs(s, Terminated);
    hide Step, QuietStep;
  }

  /** The loss of the channel closes the connection, unless a close is pending; nobody is told. */
  lemma LostChannelCloses(s: Engine)
    requires s.fault == NoFault
    ensures var s' := Step(s, ChannelLost);
            && !s'.hasChannel && (s'.closed <==> s.closed || !s.closePending)
            && (s'.closePending <==> s.closePending) && s'.closing == s.closing
            && s'.conn == s.conn && s'.queue == s.queue && s'.requests == s.requests && s'.fault == NoFault
  {
    StepIs(s, ChannelLost);
    hide Step, Flush;
  }

  /** Nothing is given to the channel of a closed connection, in any continuation. */
  lemma {:induction false} ClosedIsSilent(s: Engine, events: seq<Event>)
    requires s.closed
    ensures Run(s, events).closed && Run(s, events).pushed == s.pushed
  {
    if events != [] {
      var front, e := events[..|events| - 1], events[|events| - 1];
      ClosedIsSilent(s, front);
      StepCatches(Run(s, front), e);
      hide Step;
      StepOfClosed(Caught(Run(s, front)), e);
    }
  }

  lemma FlushOfClosed(s: Engine, polls: Polls)
    requires s.closed && s.fault == NoFault
    ensures Flush(s, polls) == Refresh(s)
  {
    assert DataToSend(s, polls) == (s, []);
  }

  lemma RespondOfClosed(s: Engine, sid: StreamId, m: Message, force: bool, polls: Polls, polls': Polls)
    requires s.closed && s.fault == NoFault
    ensures var s' := HandleResponse(s, sid, m, force, polls, polls'); s'.closed && s'.pushed == s.pushed
  {
    var s0 := Enqueue(s, sid, m);
    assert s0.closed && s0.fault == NoFault && s0.pushed == s.pushed;
    hide Enqueue, Flush;
    FlushOfClosed(s0, polls);
  }

  lemma ResetOfClosed(s: Engine, sid: StreamId, accepted: bool)
    requires s.closed && s.fault == NoFault
    ensures var s' := ResetLocally(s, sid, accepted); s'.closed && s'.pushed == s.pushed && s'.fault == NoFault
  {
  }

  lemma QuietOfClosed(s: Engine, e: Event)
    requires s.closed && IsQuiet(e)
    ensures QuietStep(s, e).closed && QuietStep(s, e).pushed == s.pushed
  {
    hide QuietStep, HandleRequest, Terminate, Regrant, Conn.Append, Priorities.Update;
    QuietIs(s, e);
    if e.Request? {
      RequestLeaves(s, e.sid);
    } else if e.Terminated? {
      TerminateLeaves(s);
    }
  }

  lemma StepOfClosed(s: Engine, e: Event)
    requires s.closed && s.fault == NoFault
    ensures Step(s, e).closed && Step(s, e).pushed == s.pushed
  {
    hide Step, Flush, HandleResponse, QuietStep, ResetLocally;
    StepIs(s, e);
    if e.Respond? {
      RespondOfClosed(s, e.sid, e.m, e.forceClose, e.polls, e.polls');
    } else if e.Flushing? {
      FlushOfClosed(s, e.polls);
    } else if e.LocalReset? {
      ResetOfClosed(s, e.sid, e.accepted);
      FlushOfClosed(ResetLocally(s, e.sid, e.accepted), e.polls);
    } else if IsQuiet(e) {
      QuietOfClosed(s, e);
    }
  }
}
