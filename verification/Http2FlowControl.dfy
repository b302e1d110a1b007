/** Flow control over whole runs (sections 6.5.2 and 6.9 of RFC 7540), and why the queue drains. */
module Http2FlowControl {
  import opened Octets
  import opened Http2Stream
  import opened H2Connection
  import opened Http2Producer
  import opened ProducerQueue
  import opened Http2Handler
  import opened Http2Guarantees

  // ----- what an event sends ------------------------------------------------------------------------

  function NewFrames(c: Conn, c': Conn): seq<Frame> {
    if |c.wire| <= |c'.wire| then c'.wire[|c.wire|..] else []
  }

  /** c' is c after sending frames that fit the windows, each at its moment. */
  ghost predicate Sends(c: Conn, c': Conn) {
    && c.wire <= c'.wire
    && c' == c.AppendAll(NewFrames(c, c')).(taken := c'.taken)
    && Fits(c, NewFrames(c, c'), 16384)
  }

  lemma {:induction false} TakenApart(c: Conn, fs: seq<Frame>, t: nat)
    ensures c.(taken := t).AppendAll(fs) == c.AppendAll(fs).(taken := t)
    ensures Fits(c.(taken := t), fs, 16384) == Fits(c, fs, 16384)
    decreases |fs|
  {
    if fs != [] {
      TakenApart(c.Append(fs[0]), fs[1..], t);
    }
  }

  lemma SendsFrames(c: Conn, fs: seq<Frame>, t: nat)
    requires Fits(c, fs, 16384)
    ensures Sends(c, c.AppendAll(fs).(taken := t))
  {
    AppendAllFacts(c, fs);
    assert NewFrames(c, c.AppendAll(fs)) == fs;
  }

  lemma SendsInTurn(c: Conn, c': Conn, c'': Conn)
    requires Sends(c, c') && Sends(c', c'')
    ensures Sends(c, c'')
  {
    hide Fits, DataSent;
    var a, b := NewFrames(c, c'), NewFrames(c', c'');
    AppendAllFacts(c, a);
    AppendAllFacts(c', b);
    assert NewFrames(c, c'') == a + b;
    TakenApart(c.AppendAll(a), b, c'.taken);
    AppendInTurn(c, a, b);
    FitsInTurn(c, a, b, 16384);
  }

  lemma SendsOther(c: Conn, f: Frame, t: nat)
    requires !f.Data?
    ensures Sends(c, c.Append(f).(taken := t))
  {
    AppendOne(c, f);
    assert [f][1..] == [];
    assert Fits(c.Append(f), [], 16384);
    SendsFrames(c, [f], t);
  }

  lemma SendsNothing(c: Conn)
    ensures Sends(c, c)
  {
    assert c.AppendAll([]) == c;
    SendsFrames(c, [], c.taken);
  }

  lemma FlushSends(s: Engine, polls: Polls)
    requires s.conn.taken <= |s.conn.wire| && s.fault == NoFault
    ensures Sends(s.conn, Flush(s, polls).conn)
  {
    var c := s.conn;
    SendsNothing(c);
    FlushIs(s, polls);
    if !s.closed {
      var r := DataFromProducers(s.queue, c, polls);
      var s1, s' := AfterPass(s, r), Flush(s, polls);
      PassFits(s.queue, c, polls, 0, |s.queue|);
      SendsFrames(c, r.frames, s'.conn.taken);
      if s1.fault == NoFault && s1.conn.Pending() == [] && ReadyToShutDown(s1) {
        SendsFrames(c, r.frames, s1.conn.taken);
        SendsOther(s1.conn, Goaway, s'.conn.taken);
        SendsInTurn(c, s1.conn, s'.conn);
      }
    }
  }

  lemma CloseSends(s: Engine, last: int, polls: Polls)
    requires s.conn.taken <= |s.conn.wire| && s.fault == NoFault
    ensures Sends(s.conn, Close(s, last, polls).conn)
  {
    SendsNothing(s.conn);
    if !s.closed && !s.closePending && s.hasChannel {
      FlushSends(DropBeyond(s.(closePending := true), last), polls);
    }
  }

  lemma RespondSends(s: Engine, sid: StreamId, m: Message, forceClose: bool, polls: Polls, polls': Polls)
    requires Inv(s) && s.fault == NoFault
    ensures Sends(s.conn, Caught(HandleResponse(s, sid, m, forceClose, polls, polls')).conn)
  {
    SendsNothing(s.conn);
    if sid !in s.handed && sid in s.requests {
      var s0 := Enqueue(s, sid, m);
      EnqueueKeeps(s, sid, m);
      FlushSends(s0, polls);
      FlushKeeps(s0, polls);
      var s1 := Flush(s0, polls);
      if s1.fault == NoFault && forceClose {
        CloseSends(s1, 0, polls');
        SendsInTurn(s.conn, s1.conn, Close(s1, 0, polls').conn);
      }
    }
  }

  predicate Grants(e: Event) {
    e.ConnCredit? || e.StreamCredit? || e.Settings?
  }

  lemma LocalResetSends(s: Engine, sid: StreamId, accepted: bool, polls: Polls)
    requires Inv(s) && s.fault == NoFault
    ensures Sends(s.conn, Flush(ResetLocally(s, sid, accepted), polls).conn)
  {
    hide Flush, Sends, ClientsOk, QueueOk;
    var s1 := ResetLocally(s, sid, accepted);
    SendsNothing(s.conn);
    SendsOther(s.conn, Reset(sid), s.conn.taken);
    LocalResetKeeps(s, sid, accepted);
    FlushSends(s1, polls);
    SendsInTurn(s.conn, s1.conn, Flush(s1, polls).conn);
  }

  /** Whatever the handler does between two grants of the peer, every DATA frame it sends is within
      16384 octets, the stream window and the connection window when it is sent. */
  lemma EveryFrameFits(s: Engine, e: Event)
    requires Inv(s) && !Grants(e)
    ensures Sends(s.conn, Step(s, e).conn)
  {
    StepCatches(s, e);
    var s0 := Caught(s);
    assert s0.fault == NoFault && s0.conn == s.conn && s.conn.taken <= |s.conn.wire|;
    hide Step, Flush, HandleResponse, Caught, Sends, Close, Core, RemoveStream, ResetLocally, QuietStep;
    StepIs(s0, e);
    if e.Respond? {
      RespondSends(s0, e.sid, e.m, e.forceClose, e.polls, e.polls');
    } else if e.Flushing? {
      FlushSends(s0, e.polls);
    } else if e.Closing? {
      CloseSends(s0, e.last, e.polls);
    } else if e.LocalReset? {
      LocalResetSends(s0, e.sid, e.accepted, e.polls);
    } else if e.ChannelLost? {
      CloseSends(s0.(hasChannel := false), 0, []);
    } else if e.PeerReset? {
      PeerResetSends(s0, e.sid);
    } else {
      QuietSends(s0, e);
    }
  }

  lemma PeerResetSends(s: Engine, sid: StreamId)
    ensures Sends(s.conn, RemoveStream(s, sid).conn)
  {
    SendsNothing(s.conn);
  }

  lemma QuietSends(s: Engine, e: Event)
    requires IsQuiet(e) && !Grants(e)
    ensures Sends(s.conn, QuietStep(s, e).conn)
  {
    SendsNothing(s.conn);
    SendsOther(s.conn, Control, s.conn.taken);
    hide Sends, Priorities.Update;
    if e.H2Output? {
      assert QuietStep(s, e) == s.(conn := s.conn.Append(Control));
      hide QuietStep;
    } else {
      QuietTouches(s, e);
      hide QuietStep;
    }
  }

  lemma RequestTouches(s: Engine, sid: StreamId)
    ensures var s' := HandleRequest(s, sid); s'.conn == s.conn && s'.fault == s.fault && s'.hurt == s.hurt
  {
    var seen := s.seen + {sid};
    if sid in s.seen {
      assert HandleRequest(s, sid) == s;
      hide *;
    } else if RequestAcceptable(s) {
      assert HandleRequest(s, sid) == s.(seen := seen, requests := s.requests + {sid});
      hide *;
    } else {
      assert HandleRequest(s, sid) == s.(seen := seen);
      hide *;
    }
  }

  lemma TerminateTouches(s: Engine)
    ensures var s' := Terminate(s); s'.conn == s.conn && s'.fault == s.fault && s'.hurt == s.hurt
  {
    var s' := Terminate(s);
    assert s' == s.(closePending := false, closed := true, closing := s'.closing, hasSendables := s'.hasSendables,
                    stale := false);
    hide Terminate;
  }

  /** A quiet event hurts nobody, and leaves the connection alone unless it grants or is h2's own. */
  lemma QuietTouches(s: Engine, e: Event)
    requires IsQuiet(e)
    ensures QuietStep(s, e).fault == s.fault && QuietStep(s, e).hurt == s.hurt
    ensures !Grants(e) && !e.H2Output? ==> QuietStep(s, e).conn == s.conn
  {
    hide QuietStep, HandleRequest, Terminate, Regrant, Conn.Append, Priorities.Update;
    QuietIs(s, e);
    if e.Request? {
      RequestTouches(s, e.sid);
    } else if e.Terminated? {
      TerminateTouches(s);
    }
  }

  // ----- totals ---------------------------------------------------------------------------------------------

  /** Connection credit granted by WINDOW_UPDATE frames on stream 0. */
  function ConnGranted(events: seq<Event>): nat {
    if events == [] then 0 else
      var e := events[|events| - 1];
      ConnGranted(events[..|events| - 1]) + (if e.ConnCredit? then e.n else 0)
  }

  /** Stream credit granted by WINDOW_UPDATE frames on the stream. */
  function StreamGranted(events: seq<Event>, sid: StreamId): nat {
    if events == [] then 0 else
      var e := events[|events| - 1];
      StreamGranted(events[..|events| - 1], sid) + (if e.StreamCredit? && e.sid == sid then e.n else 0)
  }

  /** The SETTINGS_INITIAL_WINDOW_SIZE in force: what the peer announced last. */
  function Announced(events: seq<Event>): WindowSize {
    if events == [] then INITIAL_WINDOW else
      var e := events[|events| - 1];
      if e.Settings? then e.value else Announced(events[..|events| - 1])
  }

  lemma SendsBalance(c: Conn, c': Conn, sid: StreamId)
    requires Sends(c, c')
    ensures c'.connWindow + DataSent(c'.wire) == c.connWindow + DataSent(c.wire)
    ensures c'.NetOf(sid) + DataSentOn(c'.wire, sid) == c.NetOf(sid) + DataSentOn(c.wire, sid)
    ensures c'.initialWindow == c.initialWindow
  {
    var fs := NewFrames(c, c');
    AppendAllFacts(c, fs);
    AppendAllStream(c, fs, sid);
    DataSentAppend(c.wire, fs);
    DataSentOnAppend(c.wire, fs, sid);
    assert c'.wire == c.wire + fs;
  }

  lemma StepBalance(s: Engine, e: Event, sid: StreamId)
    requires Inv(s)
    ensures var c, c' := s.conn, Step(s, e).conn;
            && c'.connWindow + DataSent(c'.wire) == c.connWindow + DataSent(c.wire) + ConnGranted([e])
            && c'.NetOf(sid) + DataSentOn(c'.wire, sid) ==
               c.NetOf(sid) + DataSentOn(c.wire, sid) + StreamGranted([e], sid)
            && c'.initialWindow == if e.Settings? then e.value else c.initialWindow
  {
    hide Inv, Sends, Proj, DataSent;
    assert [e][..0] == [];
    if Grants(e) {
      StepCatches(s, e);
      GrantIs(Caught(s), e);
      hide Step;
    } else {
      EveryFrameFits(s, e);
      SendsBalance(s.conn, Step(s, e).conn, sid);
    }
  }

  /** In every run the window that is left and the octets that were sent add up to what was granted,
      whatever was raised on the way. */
  lemma {:induction false} WindowsBalance(events: seq<Event>, sid: StreamId)
    ensures var s := Run(INIT, events);
            && s.conn.connWindow + DataSent(s.conn.wire) == INITIAL_WINDOW + ConnGranted(events)
            && s.conn.StreamWindow(sid) + DataSentOn(s.conn.wire, sid) ==
               Announced(events) + StreamGranted(events, sid)
            && s.conn.initialWindow == Announced(events)
  {
    if events != [] {
      var front, e := events[..|events| - 1], events[|events| - 1];
      WindowsBalance(front, sid);
      RunKeeps(front);
      assert [e][..0] == [];
      StepBalance(Run(INIT, front), e, sid);
    }
  }

  /** No run sends more DATA octets than the peer granted on the connection. */
  lemma NeverOverdrawn(events: seq<Event>)
    ensures DataSent(Run(INIT, events).conn.wire) <= INITIAL_WINDOW + ConnGranted(events)
  {
    RunKeeps(events);
    WindowsBalance(events, 0);
  }

  /** A window is negative exactly when more was sent on the stream than the SETTINGS in force and the
      WINDOW_UPDATE frames allow. */
  lemma NegativeWindowIff(events: seq<Event>, sid: StreamId)
    ensures var c := Run(INIT, events).conn;
            c.Window(sid) < 0 <==> DataSentOn(c.wire, sid) > Announced(events) + StreamGranted(events, sid)
  {
    RunKeeps(events);
    WindowsBalance(events, sid);
    hide Run, DataSentOn, Announced, StreamGranted;
  }

  // ----- when h2 refuses a frame -----------------------------------------------------------------------------

  ghost predicate WindowsOk(c: Conn) {
    c.connWindow >= 0 && forall sid :: c.StreamWindow(sid) >= 0
  }

  lemma {:induction false} FitsKeepsWindows(c: Conn, fs: seq<Frame>)
    requires WindowsOk(c) && Fits(c, fs, 16384)
    ensures WindowsOk(c.AppendAll(fs))
    decreases |fs|
  {
    if fs != [] {
      forall sid ensures c.Append(fs[0]).StreamWindow(sid) >= 0 {
        assert c.StreamWindow(sid) >= 0;
      }
      FitsKeepsWindows(c.Append(fs[0]), fs[1..]);
    }
  }

  lemma SendsKeepsWindows(c: Conn, c': Conn)
    requires WindowsOk(c) && Sends(c, c')
    ensures WindowsOk(c')
  {
    var c1 := c.AppendAll(NewFrames(c, c'));
    FitsKeepsWindows(c, NewFrames(c, c'));
    forall sid ensures c'.StreamWindow(sid) >= 0 {
      assert c'.StreamWindow(sid) == c1.StreamWindow(sid);
    }
  }

  lemma GrantsKeepWindows(c: Conn, e: Event)
    requires WindowsOk(c) && (e.Settings? ==> e.value >= c.initialWindow)
    ensures WindowsOk(Regrant(c, e))
  {
    forall sid ensures Regrant(c, e).StreamWindow(sid) >= 0 {
      assert c.StreamWindow(sid) >= 0;
    }
  }

  /** No SETTINGS frame announces less than what was in force. */
  ghost predicate NeverShrinks(events: seq<Event>) {
    events != [] ==>
      var front, e := events[..|events| - 1], events[|events| - 1];
      NeverShrinks(front) && (e.Settings? ==> e.value >= Announced(front))
  }

  lemma FlushNotRefused(s: Engine, polls: Polls)
    requires Core(s) && s.fault == NoFault && WindowsOk(s.conn)
    ensures !Flush(s, polls).fault.WindowRefused? && Flush(s, polls).hurt == s.hurt
  {
    FlushIs(s, polls);
    forall p | p in s.queue ensures (p.ended || Waiting(p)) && s.conn.Window(p.sid) >= 0 {
      assert Queued(s.handed, s.hurt, p, s.conn.wire, s.log);
    }
    NeverRefused(s.queue, s.conn, polls, 0, |s.queue|);
  }

  lemma CloseNotRefused(s: Engine, last: int, polls: Polls)
    requires Core(s) && s.fault == NoFault && WindowsOk(s.conn)
    ensures !Close(s, last, polls).fault.WindowRefused? && Close(s, last, polls).hurt == s.hurt
  {
    if !s.closed && !s.closePending {
      DropBeyondKeeps(s.(closePending := true), last);
      if s.hasChannel {
        FlushNotRefused(DropBeyond(s.(closePending := true), last), polls);
      }
    }
  }

  lemma RespondNotRefused(s: Engine, sid: StreamId, m: Message, forceClose: bool, polls: Polls, polls': Polls)
    requires Inv(s) && s.fault == NoFault && WindowsOk(s.conn)
    ensures var s' := Caught(HandleResponse(s, sid, m, forceClose, polls, polls'));
            s'.hurt == s.hurt && s'.fault == NoFault
  {
    if sid !in s.handed && sid in s.requests {
      var s0 := Enqueue(s, sid, m);
      EnqueueKeeps(s, sid, m);
      FlushNotRefused(s0, polls);
      FlushKeeps(s0, polls);
      FlushSends(s0, polls);
      var s1 := Flush(s0, polls);
      SendsKeepsWindows(s.conn, s1.conn);
      hide WindowsOk;
      if s1.fault == NoFault && forceClose {
        CloseNotRefused(s1, 0, polls');
      }
    }
  }

  lemma StepNotRefused(s: Engine, e: Event)
    requires Inv(s) && WindowsOk(s.conn) && (e.Settings? ==> e.value >= s.conn.initialWindow)
    ensures WindowsOk(Step(s, e).conn) && !Step(s, e).fault.WindowRefused? && Step(s, e).hurt == s.hurt
  {
    StepKeepsWindows(s, e);
    StepCatches(s, e);
    var s0 := Caught(s);
    assert s0.fault == NoFault && s0.conn == s.conn && s0.hurt == s.hurt;
    hide Step, WindowsOk, Caught;
    ActNotRefused(s0, e);
  }

  lemma ActNotRefused(s: Engine, e: Event)
    requires Inv(s) && s.fault == NoFault && WindowsOk(s.conn) && (e.Settings? ==> e.value >= s.conn.initialWindow)
    ensures !Step(s, e).fault.WindowRefused? && Step(s, e).hurt == s.hurt
    ensures Grants(e) ==> WindowsOk(Step(s, e).conn)
  {
    assert Core(s);
    hide Step, WindowsOk, Flush, HandleResponse, Caught, Close, Core, Inv, RemoveStream, ResetLocally, QuietStep;
    StepIs(s, e);
    if e.Respond? {
      RespondNotRefused(s, e.sid, e.m, e.forceClose, e.polls, e.polls');
    } else if e.Flushing? {
      FlushNotRefused(s, e.polls);
    } else if e.Closing? {
      CloseNotRefused(s, e.last, e.polls);
    } else if e.LocalReset? {
      ResetNotRefused(s, e.sid, e.accepted, e.polls);
    } else if e.ChannelLost? {
      LosingNotRefused(s);
    } else if e.PeerReset? {
      PeerResetNotRefused(s, e.sid);
    } else {
      QuietNotRefused(s, e);
    }
  }

  lemma StepKeepsWindows(s: Engine, e: Event)
    requires Inv(s) && WindowsOk(s.conn)
    ensures !Grants(e) ==> WindowsOk(Step(s, e).conn)
  {
    hide Step, WindowsOk, Sends, Inv;
    if !Grants(e) {
      EveryFrameFits(s, e);
      SendsKeepsWindows(s.conn, Step(s, e).conn);
    }
  }

  lemma PeerResetNotRefused(s: Engine, sid: StreamId)
    ensures RemoveStream(s, sid).fault == s.fault && RemoveStream(s, sid).hurt == s.hurt
  {
  }

  lemma LosingNotRefused(s: Engine)
    requires s.fault == NoFault
    ensures var s' := Close(s.(hasChannel := false), 0, []); s'.fault == NoFault && s'.hurt == s.hurt
  {
    hide Flush;
  }

  lemma QuietNotRefused(s: Engine, e: Event)
    requires s.fault == NoFault && IsQuiet(e) && WindowsOk(s.conn) && (e.Settings? ==> e.value >= s.conn.initialWindow)
    ensures QuietStep(s, e).fault == NoFault && QuietStep(s, e).hurt == s.hurt
    ensures Grants(e) ==> WindowsOk(QuietStep(s, e).conn)
  {
    if Grants(e) {
      GrantsKeepWindows(s.conn, e);
      QuietIs(s, e);
      hide QuietStep, WindowsOk, Regrant;
    } else {
      hide WindowsOk;
      QuietTouches(s, e);
    }
  }

  lemma ResetNotRefused(s: Engine, sid: StreamId, accepted: bool, polls: Polls)
    requires Inv(s) && s.fault == NoFault && WindowsOk(s.conn)
    ensures var s' := Flush(ResetLocally(s, sid, accepted), polls); !s'.fault.WindowRefused? && s'.hurt == s.hurt
  {
    hide Flush, WindowsOk, QueueOk, QuietAfterGoaway;
    LocalResetKeeps(s, sid, accepted);
    if accepted {
      SendsOther(s.conn, Reset(sid), s.conn.taken);
      SendsKeepsWindows(s.conn, ResetLocally(s, sid, accepted).conn);
    }
    FlushNotRefused(ResetLocally(s, sid, accepted), polls);
  }

  /** Exactly when h2 refuses a frame of a flush, in every run: the first producer that is asked and moves
      has a DATA frame to send, on a stream that was sent more than its peer allows by now. */
  lemma FlushRefusedIff(events: seq<Event>, polls: Polls)
    ensures var s := Run(INIT, events);
            var v := Deciding(s, polls);
            Run(INIT, events + [Flushing(polls)]).fault.WindowRefused? <==>
              && !s.closed && v.Some?
              && var p := v.value.head;
                 && HasDataFrame(p, s.conn.Window(p.sid), At(polls, v.value.at))
                 && DataSentOn(s.conn.wire, p.sid) > Announced(events) + StreamGranted(events, p.sid)
  {
    var s := Run(INIT, events);
    RunKeeps(events);
    RunInTurn(INIT, events, [Flushing(polls)]);
    OneStep(s, Flushing(polls));
    StepCatches(s, Flushing(polls));
    var s0 := Caught(s);
    assert s0.fault == NoFault && s0.conn == s.conn && s0.closed == s.closed;
    assert Deciding(s0, polls) == Deciding(s, polls);
    StepFlushing(s0, polls);
    FlushRaisesIff(s0, polls);
    if Deciding(s, polls).Some? {
      NegativeWindowIff(events, Deciding(s, polls).value.head.sid);
    }
    hide Run, Step, Caught, Flush, Inv, Deciding, DataSentOn, Announced, StreamGranted, HasDataFrame;
  }

  /** While the peer never shrinks SETTINGS_INITIAL_WINDOW_SIZE, h2 refuses no frame in any run, and
      no stream loses anything. */
  lemma {:induction false} RefusalNeedsShrink(events: seq<Event>)
    requires NeverShrinks(events)
    ensures var s := Run(INIT, events); !s.fault.WindowRefused? && s.hurt == {} && WindowsOk(s.conn)
  {
    if events != [] {
      var front, e := events[..|events| - 1], events[|events| - 1];
      RefusalNeedsShrink(front);
      RunKeeps(front);
      hide Inv, WindowsOk;
      WindowsBalance(front, 0);
      StepNotRefused(Run(INIT, front), e);
    }
  }

  // ----- has_sendables ---------------------------------------------------------------------------------------

  /** What is queued will be flushed: the channel asks `hasSendables`. */
  predicate Noticed(s: Engine) {
    s.queue != [] ==> s.hasSendables
  }

  lemma FlushNotices(s: Engine, polls: Polls)
    requires s.fault == NoFault && s.conn.taken <= |s.conn.wire|
    ensures var s' := Flush(s, polls);
            && (s'.fault == NoFault || s'.fault == NoChannel ==> Noticed(s'))
            && (s'.fault == EmptyPop || s'.fault.WindowRefused? ==> s'.hasSendables == s.hasSendables)
  {
    FlushIs(s, polls);
    PassFaults(s.queue, s.conn, polls, 0, |s.queue|);
    hide Flush, DataFromProducers;
  }

  /** Only a flush of something queued can raise in its pass. */
  lemma RaisingFlushHadQueue(s: Engine, polls: Polls)
    requires s.fault == NoFault && s.conn.taken <= |s.conn.wire|
    ensures Flush(s, polls).fault == EmptyPop || Flush(s, polls).fault.WindowRefused? ==> s.queue != []
  {
    FlushIs(s, polls);
    hide Flush;
  }

  /** A flush that raises in its pass had something queued, and `hasSendables` tells so before and after. */
  lemma FlushLeavesNoticed(s: Engine, polls: Polls)
    requires s.fault == NoFault && s.conn.taken <= |s.conn.wire| && Noticed(s)
    ensures Noticed(Flush(s, polls))
  {
    FlushNotices(s, polls);
    RaisingFlushHadQueue(s, polls);
    hide Flush;
  }

  lemma DropNotices(s: Engine, last: int, polls: Polls)
    requires Inv(s) && s.fault == NoFault && Noticed(s)
    ensures Noticed(Close(s, last, polls))
  {
    if !s.closed && !s.closePending {
      var s1 := DropBeyond(s.(closePending := true), last);
      DropBeyondKeeps(s.(closePending := true), last);
      if s.hasChannel {
        FlushLeavesNoticed(s1, polls);
      }
    }
    hide Flush;
  }

  /** A stream that nothing was sent on has a window of zero at least, so a new response that is alone
      in the queue is not refused, nor taken for ended. */
  lemma RespondNotices(s: Engine, sid: StreamId, m: Message, forceClose: bool, polls: Polls, polls': Polls)
    requires Inv(s) && s.fault == NoFault && Noticed(s)
    requires sid !in s.handed ==> s.conn.Window(sid) >= 0
    ensures Noticed(Caught(HandleResponse(s, sid, m, forceClose, polls, polls')))
  {
    if sid !in s.handed && sid in s.requests {
      var s0 := Enqueue(s, sid, m);
      EnqueueKeeps(s, sid, m);
      CoreTaken(s0);
      FlushNotices(s0, polls);
      FlushKeeps(s0, polls);
      if s.queue == [] {
        NewAloneIsServed(s, sid, m, polls);
      }
      var s1 := Flush(s0, polls);
      assert s0.hasSendables == s.hasSendables;
      hide Flush, Enqueue, Core;
      if s1.fault == NoFault && forceClose {
        DropNotices(s1, 0, polls');
      }
    }
  }

  lemma NewAloneIsServed(s: Engine, sid: StreamId, m: Message, polls: Polls)
    requires s.fault == NoFault && s.conn.taken <= |s.conn.wire| && s.queue == [] && s.conn.Window(sid) >= 0
    ensures var f := Flush(Enqueue(s, sid, m), polls).fault; f != EmptyPop && !f.WindowRefused?
  {
    var (dependsOn, weight) := PriorityOf(s, sid);
    var p, s0 := NewProducer(sid, m, dependsOn, weight), Enqueue(s, sid, m);
    assert s.queue + [p] == [p] && Sort([p][1..]) == [] && s0.queue == [p];
    assert Waiting(p) && s0.conn == s.conn && s0.fault == NoFault;
    NeverRefused([p], s.conn, polls, 0, 1);
    EmptyPopIff([p], s.conn, polls);
    assert p in [p] && !p.ended;
    hide Enqueue, DataFromProducers;
    FlushIs(s0, polls);
    hide Flush;
  }

  lemma StepNotices(s: Engine, e: Event)
    requires Inv(s) && Noticed(s)
    requires forall sid :: sid !in s.handed ==> s.conn.Window(sid) >= 0
    ensures Noticed(Step(s, e))
  {
    StepCatches(s, e);
    var s0 := Caught(s);
    assert s0.fault == NoFault && s0.conn == s.conn && s0.handed == s.handed && Noticed(s0);
    CoreTaken(s);
    StepIs(s0, e);
    hide Step, Flush, HandleResponse, Caught, Close, Core, Inv, RemoveStream, ResetLocally, QuietStep, Conn.Window;
    if e.Respond? {
      RespondNotices(s0, e.sid, e.m, e.forceClose, e.polls, e.polls');
    } else if e.Flushing? {
      FlushLeavesNoticed(s0, e.polls);
    } else if e.Closing? {
      DropNotices(s0, e.last, e.polls);
    } else if e.LocalReset? {
      LocalResetNotices(s0, e.sid, e.accepted, e.polls);
    } else if e.ChannelLost? {
      LosingNotices(s0);
    } else if e.PeerReset? {
      RemovalNotices(s0, e.sid);
    } else {
      QuietNotices(s0, e);
    }
  }

  lemma LocalResetNotices(s: Engine, sid: StreamId, accepted: bool, polls: Polls)
    requires Inv(s) && s.fault == NoFault && Noticed(s)
    ensures Noticed(Flush(ResetLocally(s, sid, accepted), polls))
  {
    LocalResetKeeps(s, sid, accepted);
    var s1 := ResetLocally(s, sid, accepted);
    CoreTaken(s1);
    RemovalNotices(s.(conn := s.conn.Append(Reset(sid))), sid);
    hide Flush, RemoveStream, Core;
    FlushLeavesNoticed(s1, polls);
  }

  lemma LosingNotices(s: Engine)
    requires s.fault == NoFault && Noticed(s)
    ensures Noticed(Close(s.(hasChannel := false), 0, []))
  {
    hide Flush;
  }

  lemma RemovalNotices(s: Engine, sid: StreamId)
    requires Noticed(s)
    ensures Noticed(RemoveStream(s, sid))
  {
    assert |EndStream(s.queue, sid)| == |s.queue|;
  }

  lemma QuietNotices(s: Engine, e: Event)
    requires IsQuiet(e) && Noticed(s)
    ensures Noticed(QuietStep(s, e))
  {
    hide QuietStep, HandleRequest, Regrant, Conn.Append, Priorities.Update;
    QuietIs(s, e);
    if e.Request? {
      RequestNotices(s, e.sid);
    }
  }

  lemma RequestNotices(s: Engine, sid: StreamId)
    requires Noticed(s)
    ensures Noticed(HandleRequest(s, sid))
  {
  }

  /** In every run, whatever was raised on the way: what is queued, `hasSendables` says so. */
  lemma {:induction false} SendablesAreNoticed(events: seq<Event>)
    ensures Noticed(Run(INIT, events))
  {
    if events != [] {
      var front, e := events[..|events| - 1], events[|events| - 1];
      var s := Run(INIT, front);
      SendablesAreNoticed(front);
      RunKeeps(front);
      forall sid | sid !in s.handed ensures s.conn.Window(sid) >= 0 {
        UnusedWindow(front, sid);
      }
      hide Inv, Noticed, Step, Conn.Window;
      StepNotices(s, e);
    }
  }

  /** Nothing was sent on a stream without a response. */
  lemma UnusedWindow(events: seq<Event>, sid: StreamId)
    requires sid !in Run(INIT, events).handed
    ensures Run(INIT, events).conn.Window(sid) >= 0
  {
    NegativeWindowIff(events, sid);
    InterleavingRefinesSequential(events, sid);
    assert DataSent([]) == 0;
  }

  // ----- the queue drains ----------------------------------------------------------------------------------------

  /** Rounds of grants by the peer, each followed by a flush in which every body is ready. */
  function Serve(s: Engine, rounds: seq<seq<Event>>): Engine {
    if rounds == [] then s else Flush(Run(Serve(s, rounds[..|rounds| - 1]), rounds[|rounds| - 1]), [])
  }

  /** In every round the peer only grants, and leaves every queued stream some window. */
  ghost predicate Served(s: Engine, rounds: seq<seq<Event>>) {
    rounds != [] ==>
      var front, grants := rounds[..|rounds| - 1], rounds[|rounds| - 1];
      var s1 := Run(Serve(s, front), grants);
      && Served(s, front)
      && (forall e :: e in grants ==> Grants(e))
      && (forall p :: p in s1.queue ==> s1.conn.Window(p.sid) > 0)
  }

  ghost predicate Open(s: Engine) {
    Inv(s) && s.fault == NoFault && !s.closed && s.hasChannel && forall p :: p in s.queue ==> !p.ended
  }

  lemma {:induction false} GrantsOnly(s: Engine, grants: seq<Event>)
    requires Open(s) && forall e :: e in grants ==> Grants(e)
    ensures var s' := Run(s, grants); Open(s') && s' == s.(conn := s'.conn)
  {
    if grants != [] {
      var front, e := grants[..|grants| - 1], grants[|grants| - 1];
      assert forall x :: x in front ==> x in grants;
      GrantsOnly(s, front);
      assert e in grants;
      StepKeeps(Run(s, front), e);
      GrantIs(Run(s, front), e);
      hide Step, Inv;
    }
  }

  lemma GrantIs(s: Engine, e: Event)
    requires s.fault == NoFault && Grants(e)
    ensures Step(s, e) == s.(conn := Regrant(s.conn, e))
  {
    StepIs(s, e);
    QuietIs(s, e);
    hide Step, QuietStep;
  }

  lemma PassServes(s: Engine)
    requires Open(s) && forall p :: p in s.queue ==> s.conn.Window(p.sid) > 0
    ensures var r := DataFromProducers(s.queue, s.conn, []);
            && r.fault == NoFault && PassShape(s.queue, r) && (forall p :: p in r.queue ==> !p.ended)
            && TotalWork(r.queue) <= Max(0, TotalWork(s.queue) - 1)
  {
    hide PassShape, SomeoneAble, TotalWork, ClientsOk, Queued, RequestsOk, ChannelOk, ShutdownOk;
    AllWaiting(s);
    PassProgress(s.queue, s.conn, []);
    PassIsShaped(s.handed, s.hurt, s.queue, s.conn, s.log, [], 0, |s.queue|);
    HeadIsAble(s);
  }

  lemma AllWaiting(s: Engine)
    requires Open(s)
    ensures forall p :: p in s.queue ==> Waiting(p)
  {
    forall p | p in s.queue ensures Waiting(p) {
      assert Queued(s.handed, s.hurt, p, s.conn.wire, s.log);
    }
  }

  lemma HeadIsAble(s: Engine)
    requires Open(s) && forall p :: p in s.queue ==> s.conn.Window(p.sid) > 0
    ensures s.queue != [] ==> SomeoneAble(s.queue, s.conn, [])
    ensures s.queue == [] ==> TotalWork(s.queue) == 0
  {
    if s.queue != [] {
      assert s.queue[0] in s.queue;
      assert Able(s.queue[0], s.conn.Window(s.queue[0].sid), At([], 0));
    }
  }

  lemma FlushServes(s: Engine)
    requires Open(s) && forall p :: p in s.queue ==> s.conn.Window(p.sid) > 0
    ensures var s' := Flush(s, []);
            && Open(s') && s'.handed == s.handed && s'.hurt == s.hurt
            && TotalWork(s'.queue) <= Max(0, TotalWork(s.queue) - 1)
            && (forall sid :: sid in Ids(s.queue) ==> sid in Ids(s'.queue) || Logged(s'.log, sid) != [])
            && (forall sid :: Logged(s.log, sid) != [] ==> Logged(s'.log, sid) != [])
  {
    var r := DataFromProducers(s.queue, s.conn, []);
    PassServes(s);
    FlushIs(s, []);
    FlushKeeps(s, []);
    ServedOrLogged(s, r);
    hide DataFromProducers, Flush, Core, Logged, TotalWork, PassShape;
    var s1, s' := AfterPass(s, r), Flush(s, []);
    assert s'.queue == r.queue && s'.log == s.log + r.log && s'.fault == NoFault;
  }

  lemma ServedOrLogged(s: Engine, r: Pass)
    requires PassShape(s.queue, r) && r.fault == NoFault && forall p :: p in s.queue ==> !p.ended
    ensures forall sid :: sid in Ids(s.queue) ==> sid in Ids(r.queue) || Logged(s.log + r.log, sid) != []
    ensures forall sid :: Logged(s.log, sid) != [] ==> Logged(s.log + r.log, sid) != []
  {
    forall sid
      ensures Logged(s.log, sid) != [] ==> Logged(s.log + r.log, sid) != []
      ensures Logged(r.log, sid) != [] ==> Logged(s.log + r.log, sid) != []
    {
      LoggedAppend(s.log, r.log, sid);
    }
    forall sid | sid in Ids(s.queue) && sid !in Ids(r.queue) ensures Logged(s.log + r.log, sid) != [] {
      assert sid in (set x | x in r.finished);
      assert !Silent(s.queue, sid);
    }
  }

  /** With bodies that are ready and windows kept positive, as many flushes as there is work left in
      the queue end every queued response, completely unless it had been damaged before. */
  lemma QueueDrains(s: Engine, rounds: seq<seq<Event>>)
    requires Open(s) && Served(s, rounds) && |rounds| >= TotalWork(s.queue)
    ensures var s' := Serve(s, rounds);
            && s'.queue == [] && s'.hurt == s.hurt
            && forall sid :: sid in Ids(s.queue) ==>
                 && sid in s'.handed && Logged(s'.log, sid) != []
                 && (sid !in s.hurt ==> Complete(s'.handed[sid], Read(Proj(s'.conn.wire, sid))))
  {
    hide Serve, TotalWork, Inv, Logged, Read, Proj, Served, Complete;
    RoundsProgress(s, rounds);
    var s' := Serve(s, rounds);
    assert s'.queue == [] by { NoWorkNoQueue(s'.queue); }
    forall sid | sid in Ids(s.queue)
      ensures sid in s'.handed && Logged(s'.log, sid) != []
      ensures sid !in s.hurt ==> Complete(s'.handed[sid], Read(Proj(s'.conn.wire, sid)))
    {
      assert sid !in Ids(s'.queue);
      LoggedIsComplete(s', sid);
    }
  }

  lemma LoggedIsComplete(s: Engine, sid: StreamId)
    requires Inv(s) && Logged(s.log, sid) != []
    ensures sid in s.handed && (sid !in s.hurt ==> Complete(s.handed[sid], Read(Proj(s.conn.wire, sid))))
  {
    assert ClientOk(s.handed, s.hurt, s.conn.wire, s.log, sid);
    hide Logged, Read, Proj;
  }

  lemma NoWorkNoQueue(q: seq<Producer>)
    requires forall p :: p in q ==> !p.ended
    ensures q != [] ==> TotalWork(q) > 0
  {
    if q != [] {
      assert q[0] in q;
    }
  }

  lemma {:induction false} RoundsProgress(s: Engine, rounds: seq<seq<Event>>)
    requires Open(s) && Served(s, rounds)
    ensures var s' := Serve(s, rounds);
            && Open(s') && s'.handed == s.handed && s'.hurt == s.hurt
            && TotalWork(s'.queue) <= Max(0, TotalWork(s.queue) - |rounds|)
            && (forall sid :: sid in Ids(s.queue) ==> sid in Ids(s'.queue) || Logged(s'.log, sid) != [])
  {
    hide Flush, TotalWork, Inv, Logged;
    if rounds != [] {
      var front, grants := rounds[..|rounds| - 1], rounds[|rounds| - 1];
      RoundsProgress(s, front);
      GrantsOnly(Serve(s, front), grants);
      FlushServes(Run(Serve(s, front), grants));
    }
  }

  // ----- a drained close ends ---------------------------------------------------------------------------------

  /** Exactly when a flush sends the GOAWAY: when it begins, the connection is open, a close is pending
      with a channel, nothing is queued, no request is open and nothing is to be sent. So the flush
      that sends the last frames of the last response never does. */
  lemma FlushSendsGoawayIff(s: Engine, polls: Polls)
    requires Inv(s) && s.fault == NoFault && !s.shutdowned
    ensures Flush(s, polls).shutdowned <==>
              && !s.closed && s.hasChannel && s.closePending && s.queue == [] && s.requests == {}
              && s.conn.Pending() == []
  {
    var r := DataFromProducers(s.queue, s.conn, polls);
    QueueWaits(s);
    CoreTaken(s);
    hide Flush, DataFromProducers, Inv, Waiting, Deciding, FlushIsRefused;
    PassOf(s, polls);
    FlushIs(s, polls);
    PassPending(s.conn, r.frames);
    if s.queue == [] {
      NothingToPass(s, polls);
      AfterIdlePass(s, []);
    }
  }

  /** A flush that finishes the last response while a close is pending leaves the GOAWAY unsent, and
      `has_sendables` false, so that the channel has no reason to flush again. */
  lemma LastFlushLeavesGoaway(s: Engine, polls: Polls)
    requires Inv(s) && s.fault == NoFault && !s.shutdowned && !s.closed && s.hasChannel && s.closePending
    requires var r := DataFromProducers(s.queue, s.conn, polls);
             r.fault == NoFault && r.frames != [] && ReadyToShutDown(AfterPass(s, r))
    ensures var s' := Flush(s, polls);
            && s'.fault == NoFault && s'.queue == [] && s'.requests == {} && s'.conn.Pending() == []
            && !s'.shutdowned && !s'.hasSendables && !s'.closed
  {
    FlushIs(s, polls);
    FlushSendsGoawayIff(s, polls);
    CoreTaken(s);
    PassPending(s.conn, DataFromProducers(s.queue, s.conn, polls).frames);
    hide Flush, DataFromProducers, Inv;
  }

  /** The next flush, whatever brings it about, sends it. */
  lemma DrainedCloseSendsGoaway(s: Engine, polls: Polls)
    requires Inv(s) && s.fault == NoFault && !s.closed && s.hasChannel && s.closePending
    requires s.queue == [] && s.requests == {} && s.conn.Pending() == []
    ensures var s' := Flush(s, polls);
            && s'.fault == NoFault && s'.shutdowned && Goaway in s'.pushed
            && s'.pushed == if s.shutdowned then s.pushed else s.pushed + [Goaway]
  {
    FlushIs(s, polls);
    CoreTaken(s);
    NothingToPass(s, polls);
    AfterIdlePass(s, []);
    WholeWirePushed(s);
    assert s.conn.Append(Goaway).Pending() == [Goaway];
    hide Flush, DataFromProducers, QueueOk;
  }

  lemma NothingToPass(s: Engine, polls: Polls)
    requires s.queue == []
    ensures DataFromProducers(s.queue, s.conn, polls) == Pass([], [], [], [], NoFault)
  {
  }

  lemma WholeWirePushed(s: Engine)
    requires ChannelOk(s) && s.hasChannel && s.conn.Pending() == []
    ensures s.pushed == s.conn.wire
  {
    assert s.conn.wire[..|s.conn.wire|] == s.conn.wire;
  }

  /** A pending close of a connection whose open requests are all answered ends: when the peer keeps
      the windows open, the flushes that drain the queue and one more send the GOAWAY. */
  lemma PendingCloseEnds(s: Engine, rounds: seq<seq<Event>>)
    requires Open(s) && Served(s, rounds) && |rounds| >= TotalWork(s.queue) && rounds != []
    requires s.closePending && forall sid :: sid in s.requests ==> sid in Ids(s.queue) && sid !in s.hurt
    ensures var s' := Flush(Serve(s, rounds), []); s'.fault == NoFault && Goaway in s'.pushed
  {
    hide TotalWork, Inv, Logged, Served, Complete, Flush;
    QueueDrains(s, rounds);
    RoundsProgress(s, rounds);
    var s' := Serve(s, rounds);
    ServedClosing(s, rounds);
    forall sid | sid in s'.requests ensures false {
      assert sid in s.requests;
      OpenIsUnlogged(s', sid) by { CoreOf(s'); }
    }
    DrainedCloseSendsGoaway(s', []);
  }

  lemma CoreOf(s: Engine)
    requires Inv(s)
    ensures Core(s)
  {
  }

  /** What the rounds leave of the rest of the state. */
  lemma {:induction false} ServedClosing(s: Engine, rounds: seq<seq<Event>>)
    requires Open(s) && Served(s, rounds)
    ensures var s' := Serve(s, rounds);
            && s'.closePending == s.closePending && s'.requests <= s.requests
            && (rounds != [] ==> s'.conn.Pending() == [])
  {
    hide Flush, Inv;
    if rounds != [] {
      var front, grants := rounds[..|rounds| - 1], rounds[|rounds| - 1];
      ServedClosing(s, front);
      RoundsProgress(s, front);
      GrantsOnly(Serve(s, front), grants);
      var s1 := Run(Serve(s, front), grants);
      FlushServes(s1);
      FlushTakesAll(s1);
    }
  }

  lemma FlushTakesAll(s: Engine)
    requires Open(s) && Flush(s, []).fault == NoFault
    ensures var s' := Flush(s, []);
            s'.conn.Pending() == [] && s'.closePending == s.closePending && s'.requests <= s.requests
  {
    CoreTaken(s);
    hide Inv, DataFromProducers;
    FlushIs(s, []);
    FlushNeverAdmits(s, []);
    hide Flush;
    var s1 := AfterPass(s, DataFromProducers(s.queue, s.conn, []));
    PushTakesAll(s1);
    PushTakesAll(s1.(conn := s1.conn.Append(Goaway), shutdowned := true));
    hide Push, AfterPass;
    FlushKeepsClosing(s);
  }

  lemma PushTakesAll(s: Engine)
    ensures Push(s).conn.Pending() == []
  {
  }

  lemma FlushKeepsClosing(s: Engine)
    requires s.fault == NoFault && s.conn.taken <= |s.conn.wire|
    ensures Flush(s, []).closePending == s.closePending
  {
    FlushIs(s, []);
    hide Flush, DataFromProducers;
  }
}
