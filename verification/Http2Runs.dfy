/** Runs in which the HTTP/2 handler does not do what it is for: one for each thing that goes wrong. */
module Http2Runs {
  import opened Octets
  import opened Wrappers
  import opened Http2Stream
  import opened H2Connection
  import opened Http2Producer
  import opened ProducerQueue
  import opened PassOrder
  import opened Http2Handler
  import opened Http2Guarantees

  // ----- a truncated response -----------------------------------------------------------------------

  /** Two requests; the first part of a response in two parts; SETTINGS that close the windows, when
      three octets have been sent; the response to the other request, whose flush finds the second part
      ready; SETTINGS that open the windows again. Each frame received ends with a flush. */
  function Truncating(m: Message): seq<Event> {
    [Request(1), Flushing([]), Request(3), Flushing([]),
     Respond(1, SPLIT, false, [Readiness(true, false)], []), Settings(0), Flushing([Readiness(false, false)]),
     Respond(3, m, false, [], []), Settings(65535), Flushing([])]
  }

  /** Whatever the other response is: the client of the first reads a complete response of six octets,
      and thirteen are logged. */
  lemma ResponseIsTruncated(m: Message)
    ensures var s := Run(INIT, Truncating(m));
            && s.fault == NoFault && s.hurt == {1} && Logged(s.log, 1) == [13]
            && Read(Proj(s.conn.wire, 1)) == Done(OK_STATUS, FIRST + [7, 8, 9], [])
  {
    var a := [Request(1), Flushing([]), Request(3), Flushing([])];
    var b := [Respond(1, SPLIT, false, [Readiness(true, false)], []), Settings(0), Flushing([Readiness(false, false)])];
    var c := [Respond(3, m, false, [], []), Settings(65535), Flushing([])];
    assert Truncating(m) == a + b + c;
    hide Run, Step, Flush, Turn, Read, Proj, Logged, NewProducer;
    RunInTurn(INIT, a + b, c);
    RunInTurn(INIT, a, b);
    TwoRequests();
    FirstPart();
    SecondPartRefused(m);
    LastPart(m);
  }

  const TWO_OPEN := INIT.(seen := {1, 3}, requests := {1, 3})

  /** Nothing is queued and nothing is to be written. */
  ghost predicate Idles(s: Engine) {
    && s.queue == [] && !s.hasSendables && !s.stale && s.fault == NoFault && !s.closePending
    && s.conn.Pending() == [] && s.conn.taken <= |s.conn.wire|
  }

  lemma IdleFlush(s: Engine)
    requires Idles(s)
    ensures Flush(s, []) == s
  {
    FlushIs(s, []);
    NothingQueued(s);
    AfterIdlePass(s, []);
  }

  lemma RequestAlone(s: Engine, sid: StreamId)
    requires Idles(s) && RequestAcceptable(s) && sid !in s.seen
    ensures Run(s, [Request(sid), Flushing([])]) == s.(seen := s.seen + {sid}, requests := s.requests + {sid})
  {
    var s1 := s.(seen := s.seen + {sid}, requests := s.requests + {sid});
    assert HandleRequest(s, sid) == s1;
    hide Step, Run, Flush, HandleRequest;
    TwoSteps(s, [Request(sid), Flushing([])]);
    StepRequest(s, sid);
    StepFlushing(s1, []);
    IdleFlush(s1);
  }

  lemma SettingsAlone(s: Engine, value: WindowSize)
    requires Idles(s)
    ensures Run(s, [Settings(value), Flushing([])]) == s.(conn := s.conn.(initialWindow := value))
  {
    var s1 := s.(conn := s.conn.(initialWindow := value));
    hide Step, Run, Flush;
    TwoSteps(s, [Settings(value), Flushing([])]);
    StepSettings(s, value);
    StepFlushing(s1, []);
    IdleFlush(s1);
  }

  lemma TwoRequests()
    ensures Run(INIT, [Request(1), Flushing([]), Request(3), Flushing([])]) == TWO_OPEN
  {
    var a, b := [Request(1), Flushing([])], [Request(3), Flushing([])];
    assert a + b == [Request(1), Flushing([]), Request(3), Flushing([])];
    assert {1} + {3} == {1, 3} && {} + {1} == {1};
    hide Run;
    RunInTurn(INIT, a, b);
    AfterRequest(1);
    RequestAlone(INIT.(seen := {1}, requests := {1}), 3);
  }

  lemma AfterRequest(sid: StreamId)
    ensures Run(INIT, [Request(sid), Flushing([])]) == INIT.(seen := {sid}, requests := {sid})
  {
    assert {} + {sid} == {sid};
    hide Run;
    RequestAlone(INIT, sid);
  }

  const HALF_CONN := Conn([Headers(1, OK_STATUS, false), Data(1, FIRST, false)], 2, 65532, 65535, map[1 := -3])

  function AfterFirst(): Engine {
    TWO_OPEN.(queue := [HalfSent()], handed := map[1 := SPLIT], conn := HALF_CONN, hasSendables := true,
              pushed := HALF_CONN.wire)
  }

  lemma FirstPart()
    ensures Run(TWO_OPEN, [Respond(1, SPLIT, false, [Readiness(true, false)], []), Settings(0),
                           Flushing([Readiness(false, false)])]) ==
            AfterFirst().(conn := HALF_CONN.(initialWindow := 0))
  {
    var s1, s2 := AfterFirst(), AfterFirst().(conn := HALF_CONN.(initialWindow := 0));
    var a := [Respond(1, SPLIT, false, [Readiness(true, false)], []), Settings(0), Flushing([Readiness(false, false)])];
    ThreeSteps(TWO_OPEN, a);
    StepRespond(TWO_OPEN, 1, SPLIT, [Readiness(true, false)]);
    hide Step, Run, Flush;
    FirstPartSent();
    StepSettings(s1, 0);
    StepFlushing(s2, [Readiness(false, false)]);
    StarvedFlush(s2);
  }

  lemma FirstPartSent()
    ensures Caught(HandleResponse(TWO_OPEN, 1, SPLIT, false, [Readiness(true, false)], [])) == AfterFirst()
  {
    var p, polls := NewProducer(1, SPLIT, 0, 1), [Readiness(true, false)];
    var s := TWO_OPEN.(queue := [p], handed := map[1 := SPLIT]);
    EnqueueAlone(TWO_OPEN, 1, SPLIT);
    HalfIsSent();
    HeadActs([p], FRESH_CONN, polls);
    FlushIs(s, polls);
    hide Flush, Enqueue, DataFromProducers, Turn;
    var fs := [Headers(1, OK_STATUS, false), Data(1, FIRST, false)];
    FirstFrames();
    assert AfterPass(s, DataFromProducers(s.queue, s.conn, polls)).requests == {1, 3};
  }

  lemma FirstFrames()
    ensures FRESH_CONN.AppendAll([Headers(1, OK_STATUS, false), Data(1, FIRST, false)]) == HALF_CONN.(taken := 0)
  {
    var fs := [Headers(1, OK_STATUS, false), Data(1, FIRST, false)];
    assert fs[1..] == [fs[1]] && fs[1..][1..] == [];
    var c := FRESH_CONN.Append(fs[0]);
    assert c.Append(fs[1]) == HALF_CONN.(taken := 0);
    assert FRESH_CONN.AppendAll(fs) == c.AppendAll([fs[1]]) == c.Append(fs[1]).AppendAll([]);
  }

  /** The window is -3 now, and the body is not ready. */
  lemma StarvedFlush(s: Engine)
    requires s == AfterFirst().(conn := HALF_CONN.(initialWindow := 0))
    ensures Flush(s, [Readiness(false, false)]) == s
  {
    var p, polls := HalfSent(), [Readiness(false, false)];
    assert Turn(p, -3, polls[0]) == Outcome(p, [], false, false, false);
    hide Turn;
    assert [p] + [p][1..] == [p] && s.conn.AppendAll([]) == s.conn;
    assert RunPass([p], s.conn, polls, 1, 1) == Pass([p], [], [], [], NoFault);
    assert DataFromProducers([p], s.conn, polls) == Pass([p], [], [], [], NoFault);
    FlushIs(s, polls);
    AfterIdlePass(s, [p]);
    hide Flush, DataFromProducers;
  }

  function Overrun(): Producer {
    HalfSent().(sent := 10, next := [7, 8, 9], more := [])
  }

  function AfterRefusal(m: Message): Engine {
    AfterFirst().(queue := [Overrun(), NewProducer(3, m, 0, 1)], handed := map[1 := SPLIT, 3 := m], hurt := {1},
                  stale := true)
  }

  /** The flush of the other response asks the first producer first, and h2 refuses. */
  lemma SecondPartRefused(m: Message)
    ensures var s := AfterFirst().(conn := HALF_CONN.(initialWindow := 0));
            Caught(HandleResponse(s, 3, m, false, [], [])) == AfterRefusal(m).(conn := s.conn)
  {
    var s, p, x := AfterFirst().(conn := HALF_CONN.(initialWindow := 0)), HalfSent(), NewProducer(3, m, 0, 1);
    var s1 := s.(queue := [p, x], handed := map[1 := SPLIT, 3 := m]);
    EnqueuesSecond(m);
    RefusedPass(x);
    hide Flush, Enqueue, DataFromProducers, Turn, NewProducer;
    FlushIs(s1, []);
    assert {} + {1} == {1} && s.conn.AppendAll([]) == s.conn && s.log + [] == [];
  }

  lemma RefusedPass(x: Producer)
    ensures DataFromProducers([HalfSent(), x], HALF_CONN.(initialWindow := 0), []) ==
            Pass([Overrun(), x], [], [], [], WindowRefused({1}))
  {
    var q, c := [HalfSent(), x], HALF_CONN.(initialWindow := 0);
    NegativeWindowIsOverrun();
    TruncationExample(3);
    assert c.Window(1) == -3 && q[1..] == [x] && [Overrun()] + [x] == [Overrun(), x];
    HeadActs(q, c, []);
    hide Turn, DataFromProducers, Conn.Window;
  }

  lemma EnqueuesSecond(m: Message)
    ensures var s := AfterFirst().(conn := HALF_CONN.(initialWindow := 0));
            Enqueue(s, 3, m) == s.(queue := [HalfSent(), NewProducer(3, m, 0, 1)], handed := map[1 := SPLIT, 3 := m])
  {
    SortsSecond(m);
    hide NewProducer, Sort;
  }

  lemma SortsSecond(m: Message)
    ensures Sort([HalfSent()] + [NewProducer(3, m, 0, 1)]) == [HalfSent(), NewProducer(3, m, 0, 1)]
  {
    var p, x := HalfSent(), NewProducer(3, m, 0, 1);
    assert [p] + [x] == [p, x] && [p, x][1..] == [x] && [x][1..] == [];
    assert Sort([x]) == [x] && Insert(p, [x]) == [p] + [x];
  }

  lemma LastPart(m: Message)
    ensures var s := Run(AfterFirst().(conn := HALF_CONN.(initialWindow := 0)),
                         [Respond(3, m, false, [], []), Settings(65535), Flushing([])]);
            && s.fault == NoFault && s.hurt == {1} && Logged(s.log, 1) == [13]
            && Read(Proj(s.conn.wire, 1)) == Done(OK_STATUS, FIRST + [7, 8, 9], [])
  {
    var s := AfterFirst().(conn := HALF_CONN.(initialWindow := 0));
    ThreeSteps(s, [Respond(3, m, false, [], []), Settings(65535), Flushing([])]);
    StepRespond(s, 3, m, []);
    SecondPartRefused(m);
    hide Step, Run, Flush, Read, Proj, Logged;
    StepSettings(AfterRefusal(m).(conn := s.conn), 65535);
    StepFlushing(AfterRefusal(m), []);
    LastPartSent(m);
  }

  lemma LastPartSent(m: Message)
    ensures var s := Flush(AfterRefusal(m), []);
            && s.fault == NoFault && s.hurt == {1} && Logged(s.log, 1) == [13]
            && Read(Proj(s.conn.wire, 1)) == Done(OK_STATUS, FIRST + [7, 8, 9], [])
  {
    var last := [Data(1, [7, 8, 9], true)];
    OwnFrames(HALF_CONN.wire + last, 1);
    LogOne(1, 13);
    ReadsSix();
    hide Flush, Read, Proj, Logged;
    LastFlush(m);
  }

  lemma LastFlush(m: Message)
    ensures var s := Flush(AfterRefusal(m), []);
            && s.fault == NoFault && s.hurt == {1} && s.log == [(1, 13)]
            && s.conn.wire == HALF_CONN.wire + [Data(1, [7, 8, 9], true)]
  {
    var s, last := AfterRefusal(m), [Data(1, [7, 8, 9], true)];
    TruncationExample(65532);
    HeadActs(s.queue, s.conn, []);
    hide Turn, NewProducer;
    var r := DataFromProducers(s.queue, s.conn, []);
    assert r.frames == last && r.log == [(1, 13)] && r.fault == NoFault;
    hide DataFromProducers;
    FlushIs(s, []);
    AppendAllFacts(s.conn, last);
    PassPending(s.conn, last);
    hide Flush;
    assert [] + [(1, 13)] == [(1, 13)];
  }

  lemma OwnFrames(frames: seq<Frame>, sid: StreamId)
    requires forall f :: f in frames ==> Carries(f) && f.sid == sid
    ensures Proj(frames, sid) == frames
  {
    ProjOwn(frames, sid, sid);
  }

  lemma LogOne(sid: StreamId, n: nat)
    ensures Logged([(sid, n)], sid) == [n]
  {
    assert [(sid, n)][..0] == [];
  }

  lemma EnqueueAlone(s: Engine, sid: StreamId, m: Message)
    requires s.queue == [] && s.priorities == []
    ensures Enqueue(s, sid, m) == s.(queue := [NewProducer(sid, m, 0, 1)], handed := s.handed[sid := m])
  {
    var p := NewProducer(sid, m, 0, 1);
    assert [] + [p] == [p] && [p][1..] == [] && Sort([p]) == [p];
  }

  /** A pass whose first producer acts. */
  lemma HeadActs(q: seq<Producer>, c: Conn, polls: Polls)
    requires q != [] && Acts(TurnAt(q, c, polls, 0))
    ensures var s := TurnAt(q, c, polls, 0);
            DataFromProducers(q, c, polls) ==
            if s.refused then Pass([s.p] + q[1..], s.frames, LogOf(s), [], WindowRefused(LostBy(q[0], s)))
            else Pass(AfterTurn(q, s), s.frames, LogOf(s), if s.p.ended then [s.p.sid] else [], NoFault)
  {
    hide Turn;
    assert RunPass(q, c, polls, 0, |q|) == Continue(q, c, TurnAt(q, c, polls, 0), polls, 0, |q|);
  }

  /** One request, and SETTINGS that change the stream windows. */
  lemma AfterSettings(value: WindowSize)
    ensures var s := Run(INIT, [Request(1), Flushing([]), Settings(value), Flushing([])]);
            && s == INIT.(seen := {1}, requests := {1}, conn := FRESH_CONN.(initialWindow := value))
            && s.conn.Window(1) == Min(INITIAL_WINDOW, value)
  {
    var a, b := [Request(1), Flushing([])], [Settings(value), Flushing([])];
    assert a + b == [Request(1), Flushing([]), Settings(value), Flushing([])];
    hide Run;
    RunInTurn(INIT, a, b);
    AfterRequest(1);
    SettingsAlone(INIT.(seen := {1}, requests := {1}), value);
  }

  // ----- a lost channel ------------------------------------------------------------------------------------

  /** A quiet connection with a request that nobody has answered yet. */
  ghost predicate Waits(s: Engine, sid: StreamId) {
    && Inv(s) && s.fault == NoFault && RequestAcceptable(s) && sid in s.requests && sid !in s.handed
    && s.queue == [] && !s.hasSendables && !s.stale && s.conn.Pending() == []
  }

  /** A channel lost while a close is pending: `close` returns at once then, so the connection is never
      marked closed. */
  lemma LostWhileClosing(s: Engine, sid: StreamId)
    requires Waits(s, sid)
    ensures var s' := s.(closePending := true, hasChannel := false);
            Run(s, [Closing(0, []), ChannelLost]) == s' && Inv(s') && !s'.closed
  {
    var a := [Closing(0, []), ChannelLost];
    var s1 := s.(closePending := true);
    CoreTaken(s);
    IdleClose(s);
    hide Step, Run, Flush, Close, Inv;
    StepClosing(s, 0, []);
    StepLost(s1);
    TwoSteps(s, a);
    StepKeeps(s, a[0]);
    StepKeeps(s1, a[1]);
  }

  /** So the response to the open request, whatever it is, is pushed on no channel: `done` catches the
      exception, h2 has given its frames away and nobody has them. */
  lemma LostChannelIsPushedOn(s: Engine, sid: StreamId, m: Message)
    requires Waits(s, sid) && s.conn.Window(sid) > 0
    ensures var s1 := Run(s, [Closing(0, []), ChannelLost]);
            var s' := HandleResponse(s1, sid, m, false, [], []);
            && s'.fault == NoChannel && Step(s1, Respond(sid, m, false, [], [])) == Caught(s')
            && s'.pushed == s.pushed && s.conn.wire < s'.conn.wire && s'.conn.Pending() == []
  {
    var s1 := s.(closePending := true, hasChannel := false);
    LostWhileClosing(s, sid);
    StepRespond(s1, sid, m, []);
    RespondsOnNoChannel(s1, sid, m);
    hide Step, Run, HandleResponse, Inv;
  }

  lemma RespondsOnNoChannel(s: Engine, sid: StreamId, m: Message)
    requires Inv(s) && s.fault == NoFault && !s.closed && !s.hasChannel && s.queue == [] && s.conn.Pending() == []
    requires sid in s.requests && sid !in s.handed && s.conn.Window(sid) > 0
    ensures var s' := HandleResponse(s, sid, m, false, [], []);
            s'.fault == NoChannel && s'.pushed == s.pushed && s.conn.wire < s'.conn.wire && s'.conn.Pending() == []
  {
    var (dependsOn, weight) := PriorityOf(s, sid);
    var p, s0 := NewProducer(sid, m, dependsOn, weight), Enqueue(s, sid, m);
    assert s.queue + [p] == [p] && Sort([p][1..]) == [] && s0.queue == [p];
    CoreTaken(s);
    assert s0.conn == s.conn && s0.pushed == s.pushed && s0.fault == s.fault;
    hide Flush, Core, Enqueue;
    FlushOnNoChannel(s0, p);
    assert HandleResponse(s, sid, m, false, [], []) == Flush(s0, []);
  }

  lemma FlushOnNoChannel(s: Engine, p: Producer)
    requires s.fault == NoFault && !s.closed && !s.hasChannel && s.queue == [p] && s.conn.taken <= |s.conn.wire|
    requires !p.ended && p.headers.Some? && s.conn.Window(p.sid) > 0
    ensures var s' := Flush(s, []);
            s'.fault == NoChannel && s'.pushed == s.pushed && s.conn.wire < s'.conn.wire && s'.conn.Pending() == []
  {
    NewMoves(p, s.conn);
    HeadActs([p], s.conn, []);
    var fs := TurnAt([p], s.conn, [], 0).frames;
    hide Turn;
    assert DataFromProducers(s.queue, s.conn, []).frames == fs;
    assert DataFromProducers(s.queue, s.conn, []).fault == NoFault;
    hide DataFromProducers;
    FlushIs(s, []);
    PassPending(s.conn, fs);
    AppendAllFacts(s.conn, fs);
    hide Flush;
  }

  /** A new producer with window sends its headers at least. */
  lemma NewMoves(p: Producer, c: Conn)
    requires !p.ended && p.headers.Some? && c.Window(p.sid) > 0
    ensures var s := TurnAt([p], c, [], 0); s.produced && !s.refused && s.frames != []
  {
    ProducedIffAble(p, c.Window(p.sid), Readiness(true, true));
    TurnProgress(p, c.Window(p.sid), Readiness(true, true));
  }

  /** The same after an abort of the channel, of which the handler is not told. */
  lemma AbortedChannelIsPushedOn(s: Engine, sid: StreamId, m: Message)
    requires Waits(s, sid) && s.conn.Window(sid) > 0
    ensures var s1 := Step(s, ChannelAborted);
            var s' := HandleResponse(s1, sid, m, false, [], []);
            && s'.fault == NoChannel && Step(s1, Respond(sid, m, false, [], [])) == Caught(s')
            && s'.pushed == s.pushed && s.conn.wire < s'.conn.wire && s'.conn.Pending() == []
  {
    var s1 := s.(hasChannel := false);
    StepKeeps(s, ChannelAborted);
    StepIs(s, ChannelAborted);
    QuietIs(s, ChannelAborted);
    StepRespond(s1, sid, m, []);
    hide Step, HandleResponse, Inv, QuietStep;
    RespondsOnNoChannel(s1, sid, m);
  }

  /** `reset_stream` raises too, and nothing in the handler catches it. */
  lemma ResetOnNoChannelRaises(s: Engine, sid: StreamId)
    requires Waits(s, sid)
    ensures Run(s, [Closing(0, []), ChannelLost, LocalReset(sid, true, [])]).fault == NoChannel
  {
    var s1 := s.(closePending := true, hasChannel := false);
    LostWhileClosing(s, sid);
    RunInTurn(s, [Closing(0, []), ChannelLost], [LocalReset(sid, true, [])]);
    assert [Closing(0, []), ChannelLost] + [LocalReset(sid, true, [])] ==
           [Closing(0, []), ChannelLost, LocalReset(sid, true, [])];
    OneStep(s1, LocalReset(sid, true, []));
    StepIs(s1, LocalReset(sid, true, []));
    ResetIsPending(s1, sid);
    hide Step, Run, Flush, Inv, ResetLocally;
    LocalResetKeeps(s1, sid, true);
    FlushRaisesIff(ResetLocally(s1, sid, true), []);
  }

  lemma ResetIsPending(s: Engine, sid: StreamId)
    requires s.queue == [] && s.conn.taken <= |s.conn.wire|
    ensures var s' := ResetLocally(s, sid, true);
            && s'.conn.Pending() != [] && s'.queue == [] && s'.closed == s.closed && s'.hasChannel == s.hasChannel
            && s'.fault == s.fault && !FlushIsRefused(s', [])
  {
    var s' := ResetLocally(s, sid, true);
    assert s'.conn.wire[|s.conn.wire|] == Reset(sid);
  }

  lemma WaitsIsReachable()
    ensures var s := Run(INIT, [Request(1), Flushing([])]); Waits(s, 1) && s.conn.Window(1) > 0
  {
    hide Step, Run, Inv;
    RunKeeps([Request(1), Flushing([])]);
    AfterRequest(1);
  }

  lemma IdleClose(s: Engine)
    requires RequestAcceptable(s) && s.queue == [] && s.requests != {} && s.fault == NoFault
    requires !s.hasSendables && !s.stale
    requires s.conn.Pending() == [] && s.conn.taken <= |s.conn.wire|
    ensures Close(s, 0, []) == s.(closePending := true)
  {
    var s0 := s.(closePending := true);
    FlushIs(s0, []);
    AfterIdlePass(s0, []);
  }

  // ----- a GOAWAY left unsent ------------------------------------------------------------------------------

  /** The response to the last open request, sent whole while a close is pending: the GOAWAY is not
      sent, and nothing makes the channel flush again. */
  lemma LastResponseLeavesGoaway(s: Engine, sid: StreamId, m: Message)
    requires Waits(s, sid) && s.requests == {sid} && s.conn.Window(sid) > 0 && m.body.None?
    ensures var s' := Run(s, [Closing(0, []), Respond(sid, m, false, [], [])]);
            && s'.fault == NoFault && s'.closePending && !s'.closed && s'.queue == [] && s'.requests == {}
            && s'.conn.Pending() == [] && !s'.shutdowned && Goaway !in s'.conn.wire && !s'.hasSendables
  {
    var s1 := s.(closePending := true);
    CoreTaken(s);
    IdleClose(s);
    hide Step, Run, Flush, Close, HandleResponse, Inv;
    TwoSteps(s, [Closing(0, []), Respond(sid, m, false, [], [])]);
    StepClosing(s, 0, []);
    StepKeeps(s, Closing(0, []));
    StepRespond(s1, sid, m, []);
    StepKeeps(s1, Respond(sid, m, false, [], []));
    LastResponse(s1, sid, m);
    NoGoaway(Caught(HandleResponse(s1, sid, m, false, [], [])));
  }

  lemma NoGoaway(s: Engine)
    requires Inv(s) && !s.shutdowned
    ensures Goaway !in s.conn.wire
  {
  }

  lemma LastResponse(s: Engine, sid: StreamId, m: Message)
    requires Inv(s) && s.fault == NoFault && s.closePending && !s.closed && s.hasChannel && !s.shutdowned
    requires s.requests == {sid} && sid !in s.handed && s.conn.Window(sid) > 0 && m.body.None? && s.queue == []
    ensures var s' := HandleResponse(s, sid, m, false, [], []);
            && s'.fault == NoFault && s'.closePending && !s'.closed && s'.queue == [] && s'.requests == {}
            && s'.conn.Pending() == [] && !s'.shutdowned && !s'.hasSendables
  {
    var (dependsOn, weight) := PriorityOf(s, sid);
    var p, s0 := NewProducer(sid, m, dependsOn, weight), Enqueue(s, sid, m);
    assert s.queue + [p] == [p] && Sort([p][1..]) == [] && s0.queue == [p];
    EnqueueKeeps(s, sid, m);
    SendablesKeep(s0);
    CoreTaken(s0);
    NewMoves(p, s.conn);
    HeadActs([p], s.conn, []);
    assert TurnAt([p], s.conn, [], 0).p == p.(headers := None, ended := true);
    hide Turn, Flush, Core, NewProducer, Enqueue;
    var r := DataFromProducers([p], s.conn, []);
    assert r.queue == [] && r.finished == [sid] && r.frames != [] && r.fault == NoFault;
    hide DataFromProducers;
    assert s0.requests - (set x | x in r.finished) == {};
    FlushSaysNothing(s0, r);
    assert HandleResponse(s, sid, m, false, [], []) == Flush(s0, []);
  }

  /** `LastFlushLeavesGoaway`, whatever `hasSendables` was. */
  lemma FlushSaysNothing(s: Engine, r: Pass)
    requires s.conn.taken <= |s.conn.wire| && s.fault == NoFault && r == DataFromProducers(s.queue, s.conn, [])
    requires !s.shutdowned && !s.closed && s.hasChannel && s.closePending
    requires r.fault == NoFault && r.frames != [] && r.queue == []
    ensures var s' := Flush(s, []);
            && s'.fault == NoFault && s'.closePending && !s'.closed && s'.queue == []
            && s'.requests == s.requests - (set x | x in r.finished)
            && s'.conn.Pending() == [] && !s'.shutdowned && !s'.hasSendables
  {
    FlushIs(s, []);
    PassPending(s.conn, r.frames);
    AppendAllFacts(s.conn, r.frames);
    hide Flush, DataFromProducers;
  }

  /** `LastResponseLeavesGoaway` from the start. */
  lemma GoawayIsLeft(m: Message)
    requires m.body.None?
    ensures var s := Run(INIT, [Request(1), Flushing([]), Closing(0, []), Respond(1, m, false, [], [])]);
            && s.fault == NoFault && s.closePending && s.queue == [] && s.requests == {}
            && Goaway !in s.conn.wire && !s.hasSendables
  {
    var a, b := [Request(1), Flushing([])], [Closing(0, []), Respond(1, m, false, [], [])];
    assert a + b == [Request(1), Flushing([]), Closing(0, []), Respond(1, m, false, [], [])];
    hide Run, Step, Inv;
    RunInTurn(INIT, a, b);
    WaitsIsReachable();
    AfterRequest(1);
    LastResponseLeavesGoaway(Run(INIT, a), 1, m);
  }

  // ----- a stalled stream ----------------------------------------------------------------------------------

  /** An idle connection on which one stream, with a window of zero, has an unanswered request. */
  ghost predicate Stalled(s: Engine, sid: StreamId) {
    && Inv(s) && s.fault == NoFault && RequestAcceptable(s) && s.queue == []
    && sid in s.requests && sid !in s.handed && s.conn.Window(sid) == 0 && s.conn.Pending() == []
  }

  lemma StalledResponse(s: Engine, sid: StreamId, m: Message)
    requires Stalled(s, sid)
    ensures HandleResponse(s, sid, m, false, [], []) ==
            Enqueue(s, sid, m).(hasSendables := true, stale := false)
    ensures |Enqueue(s, sid, m).queue| == 1 && Enqueue(s, sid, m).queue[0].sid == sid
  {
    var (dependsOn, weight) := PriorityOf(s, sid);
    var p, s0 := NewProducer(sid, m, dependsOn, weight), Enqueue(s, sid, m);
    assert s.queue + [p] == [p] && Sort([p][1..]) == [] && s0.queue == [p];
    assert [p] + [p][1..] == [p] && s.conn.AppendAll([]) == s.conn;
    assert RunPass([p], s.conn, [], 1, 1) == Pass([p], [], [], [], NoFault);
    assert DataFromProducers([p], s.conn, []) == Pass([p], [], [], [], NoFault);
    FlushIs(s0, []);
    AfterIdlePass(s0, [p]);
  }

  /** A client that keeps the window of a stream closed and resets it makes the next flush raise the
      IndexError of an empty queue, whatever the response, when nothing else is queued. */
  lemma ResetOfStalledRaises(s: Engine, sid: StreamId, m: Message)
    requires Stalled(s, sid)
    ensures Run(s, [Respond(sid, m, false, [], []), PeerReset(sid), Flushing([])]).fault == EmptyPop
  {
    var events := [Respond(sid, m, false, [], []), PeerReset(sid), Flushing([])];
    var s1 := Enqueue(s, sid, m).(hasSendables := true, stale := false);
    var s2 := RemoveStream(s1, sid);
    assert s1.fault == NoFault && s2.fault == NoFault && s2.closed == s.closed;
    StalledResponse(s, sid, m);
    hide Step, Run, Flush, HandleResponse, Inv, Enqueue, DataFromProducers;
    assert |s2.queue| == 1 && AllEnded(s2.queue);
    ThreeSteps(s, events);
    StepRespond(s, sid, m, []);
    StepIs(s1, PeerReset(sid));
    StepFlushing(s2, []);
    StepKeeps(s, events[0]);
    StepKeeps(s1, events[1]);
    FlushRaisesIff(s2, []);
  }

  /** Such a connection is one request and one SETTINGS frame away. */
  lemma StalledIsReachable()
    ensures Stalled(Run(INIT, [Request(1), Flushing([]), Settings(0), Flushing([])]), 1)
  {
    hide Run, Step, Inv, Conn.Window;
    RunKeeps([Request(1), Flushing([]), Settings(0), Flushing([])]);
    AfterSettings(0);
  }

  // ----- a reset reorders the queue ----------------------------------------------------------------------

  /** Three requests, no window, three responses, a reset of the first stream, and then window. */
  function Reordering(a: Message, b: Message, c: Message): seq<Event> {
    [Request(1), Flushing([]), Request(3), Flushing([]), Request(5), Flushing([]), Settings(0), Flushing([]),
     Respond(1, a, false, [], []), Respond(3, b, false, [], []), Respond(5, c, false, [], []),
     PeerReset(1), Flushing([]), Settings(65535), Flushing([])]
  }

  /** Stream 5 is served before stream 3, although that comes first in the order of the queue. */
  lemma ResetReorders(a: Message, b: Message, c: Message)
    ensures Less(NewProducer(3, b, 0, 1), NewProducer(5, c, 0, 1))
    ensures var s := Run(INIT, Reordering(a, b, c));
            s.fault == NoFault && Proj(s.conn.wire, 3) == [] && Proj(s.conn.wire, 5) != []
  {
    var e1 := [Request(1), Flushing([]), Request(3), Flushing([])];
    var e2 := [Request(5), Flushing([]), Settings(0), Flushing([])];
    var e3 := [Respond(1, a, false, [], []), Respond(3, b, false, [], []), Respond(5, c, false, [], [])];
    var e4 := [PeerReset(1), Flushing([]), Settings(65535), Flushing([])];
    assert Reordering(a, b, c) == e1 + e2 + e3 + e4;
    hide Run, Step, Flush, Proj, NewProducer;
    RunInTurn(INIT, e1 + e2 + e3, e4);
    RunInTurn(INIT, e1 + e2, e3);
    RunInTurn(INIT, e1, e2);
    TwoRequests();
    ThirdRequest();
    ThreeResponses(a, b, c);
    ResetAndServe(a, b, c);
  }

  const THREE_OPEN := INIT.(seen := {1, 3, 5}, requests := {1, 3, 5}, conn := FRESH_CONN.(initialWindow := 0))

  lemma ThirdRequest()
    ensures Run(TWO_OPEN, [Request(5), Flushing([]), Settings(0), Flushing([])]) == THREE_OPEN
  {
    var a, b := [Request(5), Flushing([])], [Settings(0), Flushing([])];
    assert a + b == [Request(5), Flushing([]), Settings(0), Flushing([])];
    assert {1, 3} + {5} == {1, 3, 5};
    hide Run;
    RunInTurn(TWO_OPEN, a, b);
    RequestAlone(TWO_OPEN, 5);
    SettingsAlone(THREE_OPEN.(conn := FRESH_CONN), 0);
  }

  /** Without window nothing happens to the queue. */
  lemma ClosedWindowsFlush(s: Engine)
    requires s.fault == NoFault && !s.closed && !s.closePending && s.conn == THREE_OPEN.conn
    requires forall p :: p in s.queue ==> Waiting(p)
    ensures Flush(s, []) == Refresh(s)
  {
    var q := s.queue;
    PassIsRotation(q, s.conn, []);
    var k := FirstActive(q, s.conn, [], 0);
    if k < |q| {
      ActsIffAble(q, s.conn, [], k);
    }
    hide Turn, DataFromProducers, FirstActive;
    FlushIs(s, []);
    AfterIdlePass(s, q);
    hide Flush;
  }

  /** What has been sorted stays as it is when the last in the order is added. */
  lemma SortOfSorted(q: seq<Producer>)
    requires Sorted(q) && Distinct(q)
    ensures Sort(q) == q
  {
    SortFacts(q);
    SortIsUnique(Sort(q), q);
  }

  lemma WaitsInLine(s: Engine, sid: StreamId, m: Message)
    requires s.fault == NoFault && !s.closed && !s.closePending && s.conn == THREE_OPEN.conn && s.priorities == []
    requires sid in s.requests && sid !in s.handed && forall p :: p in s.queue ==> Waiting(p)
    requires var q := s.queue + [NewProducer(sid, m, 0, 1)]; Sorted(q) && Distinct(q)
    ensures Step(s, Respond(sid, m, false, [], [])) ==
            Refresh(s.(queue := s.queue + [NewProducer(sid, m, 0, 1)], handed := s.handed[sid := m]))
  {
    var s1 := s.(queue := s.queue + [NewProducer(sid, m, 0, 1)], handed := s.handed[sid := m]);
    SortOfSorted(s1.queue);
    assert Enqueue(s, sid, m) == s1;
    StepRespond(s, sid, m, []);
    hide Enqueue, Flush, Step, Sorted, Distinct;
    ClosedWindowsFlush(s1);
  }

  function InLine(a: Message, b: Message, c: Message): Engine {
    THREE_OPEN.(queue := [NewProducer(1, a, 0, 1), NewProducer(3, b, 0, 1), NewProducer(5, c, 0, 1)],
                handed := map[1 := a, 3 := b, 5 := c], hasSendables := true)
  }

  function OneInLine(a: Message): Engine {
    THREE_OPEN.(queue := [NewProducer(1, a, 0, 1)], handed := map[1 := a], hasSendables := true)
  }

  function TwoInLine(a: Message, b: Message): Engine {
    THREE_OPEN.(queue := [NewProducer(1, a, 0, 1), NewProducer(3, b, 0, 1)], handed := map[1 := a, 3 := b],
                hasSendables := true)
  }

  lemma FirstInLine(a: Message)
    ensures Step(THREE_OPEN, Respond(1, a, false, [], [])) == OneInLine(a)
  {
    var p := NewProducer(1, a, 0, 1);
    assert [] + [p] == [p];
    WaitsInLine(THREE_OPEN, 1, a);
    hide Step, NewProducer;
  }

  lemma SecondInLine(a: Message, b: Message)
    ensures Step(OneInLine(a), Respond(3, b, false, [], [])) == TwoInLine(a, b)
  {
    var p, x := NewProducer(1, a, 0, 1), NewProducer(3, b, 0, 1);
    assert [p] + [x] == [p, x];
    WaitsInLine(OneInLine(a), 3, b);
    hide Step, NewProducer;
  }

  lemma ThirdInLine(a: Message, b: Message, c: Message)
    ensures Step(TwoInLine(a, b), Respond(5, c, false, [], [])) == InLine(a, b, c)
  {
    var p, x, y := NewProducer(1, a, 0, 1), NewProducer(3, b, 0, 1), NewProducer(5, c, 0, 1);
    assert [p, x] + [y] == [p, x, y];
    WaitsInLine(TwoInLine(a, b), 5, c);
    hide Step, NewProducer;
  }

  lemma ThreeResponses(a: Message, b: Message, c: Message)
    ensures Run(THREE_OPEN, [Respond(1, a, false, [], []), Respond(3, b, false, [], []),
                             Respond(5, c, false, [], [])]) == InLine(a, b, c)
  {
    hide *;
    FirstInLine(a);
    SecondInLine(a, b);
    ThirdInLine(a, b, c);
    ThreeSteps(THREE_OPEN, [Respond(1, a, false, [], []), Respond(3, b, false, [], []), Respond(5, c, false, [], [])]);
  }

  /** When the first stream has been reset. */
  function AfterReset(a: Message, b: Message, c: Message): Engine {
    var p := NewProducer(1, a, 0, 1).(ended := true);
    InLine(a, b, c).(queue := [p, NewProducer(3, b, 0, 1), NewProducer(5, c, 0, 1)], requests := {3, 5})
  }

  /** And when the flush behind it has taken its producer off and rotated the next one to the end. */
  function Reordered(a: Message, b: Message, c: Message): Engine {
    InLine(a, b, c).(queue := [NewProducer(5, c, 0, 1), NewProducer(3, b, 0, 1)], requests := {3, 5})
  }

  lemma ResetIsStep(a: Message, b: Message, c: Message)
    ensures Step(InLine(a, b, c), PeerReset(1)) == AfterReset(a, b, c)
  {
    var s := InLine(a, b, c);
    assert EndStream(s.queue, 1) == AfterReset(a, b, c).queue;
    assert {1, 3, 5} - {1} == {3, 5};
    assert RemoveStream(s, 1) == AfterReset(a, b, c);
    hide Step, EndStream, NewProducer, RemoveStream;
    StepIs(s, PeerReset(1));
  }

  lemma ResetAndServe(a: Message, b: Message, c: Message)
    ensures var s := Run(InLine(a, b, c), [PeerReset(1), Flushing([]), Settings(65535), Flushing([])]);
            s.fault == NoFault && Proj(s.conn.wire, 3) == [] && Proj(s.conn.wire, 5) != []
  {
    var s1, s2 := AfterReset(a, b, c), Reordered(a, b, c);
    hide Step, Run, Flush, NewProducer, Proj;
    FourSteps(InLine(a, b, c), [PeerReset(1), Flushing([]), Settings(65535), Flushing([])]);
    ResetIsStep(a, b, c);
    StepFlushing(s1, []);
    EndedIsTakenOff(a, b, c);
    StepSettings(s2, 65535);
    StepFlushing(s2.(conn := FRESH_CONN), []);
    ServesFive(s2.(conn := FRESH_CONN), b, c);
  }

  lemma ResetPass(a: Message, b: Message, c: Message)
    ensures DataFromProducers(AfterReset(a, b, c).queue, THREE_OPEN.conn, []) ==
            Pass(Reordered(a, b, c).queue, [], [], [1], NoFault)
  {
    var p := NewProducer(1, a, 0, 1).(ended := true);
    TakenOffPass(p, NewProducer(3, b, 0, 1), NewProducer(5, c, 0, 1), THREE_OPEN.conn);
    hide DataFromProducers;
  }

  lemma TakenOffPass(p: Producer, x: Producer, y: Producer, c: Conn)
    requires p.ended && Waiting(x) && Waiting(y) && forall sid :: c.Window(sid) == 0
    ensures DataFromProducers([p, x, y], c, []) == Pass([y, x], [], [], [p.sid], NoFault)
  {
    var q := [p, x, y];
    TakenOff(p, x, y);
    hide Visits, Unmoved, Turn, DataFromProducers, Conn.Window;
    PassIsDecided(q, c, []);
    NoWindowNoMover(Visits(q, [], 0, 3), c);
  }

  lemma NoWindowNoMover(vs: seq<Visit>, c: Conn)
    requires forall sid :: c.Window(sid) == 0
    ensures FirstMover(vs, c, []) == |vs|
  {
    hide Conn.Window;
  }

  lemma EndedIsTakenOff(a: Message, b: Message, c: Message)
    ensures Flush(AfterReset(a, b, c), []) == Reordered(a, b, c)
  {
    var s := AfterReset(a, b, c);
    ResetPass(a, b, c);
    hide NewProducer, DataFromProducers;
    assert s.conn.AppendAll([]) == s.conn && {3, 5} - (set x | x in [1]) == {3, 5};
    FlushIs(s, []);
    hide Flush;
  }

  lemma TakenOff(p: Producer, x: Producer, y: Producer)
    requires p.ended && !x.ended && !y.ended
    ensures Unmoved([p, x, y], [], 0, 3) == Pass([y, x], [], [], [p.sid], NoFault)
  {
    assert [p, x, y][1..] == [x, y] && Rotate([x, y]) == [y, x] && Rotate([y, x]) == [x, y] && [] + [p.sid] == [p.sid];
    assert Unmoved([y, x], [p.sid], 3, 3) == Pass([y, x], [], [], [p.sid], NoFault);
    assert Unmoved([x, y], [p.sid], 2, 3) == Pass([y, x], [], [], [p.sid], NoFault);
    assert Unmoved([y, x], [p.sid], 1, 3) == Pass([y, x], [], [], [p.sid], NoFault);
  }

  lemma ServesFive(s: Engine, b: Message, c: Message)
    requires s.queue == [NewProducer(5, c, 0, 1), NewProducer(3, b, 0, 1)] && s.conn == FRESH_CONN
    requires s.fault == NoFault && !s.closed && s.hasChannel && !s.closePending
    ensures var s' := Flush(s, []);
            s'.fault == NoFault && Proj(s'.conn.wire, 3) == [] && Proj(s'.conn.wire, 5) != []
  {
    var y := NewProducer(5, c, 0, 1);
    NewMoves(y, s.conn);
    HeadActs(s.queue, s.conn, []);
    OwnStreamOnly(y, s.conn.Window(5), Readiness(true, true));
    var fs := Turn(y, s.conn.Window(5), Readiness(true, true)).frames;
    ProjOwn(fs, 3, 5);
    ProjOwn(fs, 5, 5);
    FlushIs(s, []);
    AppendAllFacts(s.conn, fs);
    assert [] + fs == fs;
    hide Flush, DataFromProducers, Turn, Proj, NewProducer;
  }

  // ----- an able producer is passed over ---------------------------------------------------------------

  /** Three requests, no window, three responses; window for the last, and before the flush behind it,
      a thread of the application that resets the one in the middle. */
  function PassingOver(a: Message, b: Message, c: Message): seq<Event> {
    [Request(1), Flushing([]), Request(3), Flushing([]), Request(5), Flushing([]), Settings(0), Flushing([]),
     Respond(1, a, false, [], []), Respond(3, b, false, [], []), Respond(5, c, false, [], []),
     StreamCredit(5, 100), LocalReset(3, true, [])]
  }

  /** The flush of the reset sends nothing of stream 5, which has a window and everything to send. */
  lemma AbleIsNotAsked(a: Message, b: Message, c: Message)
    ensures var s, y := Run(INIT, PassingOver(a, b, c)), NewProducer(5, c, 0, 1);
            && s.fault == NoFault && s.queue == [y, NewProducer(1, a, 0, 1)]
            && s.conn.Window(5) == 100 && Able(y, 100, Readiness(true, true))
            && s.conn.wire == [Reset(3)] == s.pushed
  {
    var e1 := [Request(1), Flushing([]), Request(3), Flushing([])];
    var e2 := [Request(5), Flushing([]), Settings(0), Flushing([])];
    var e3 := [Respond(1, a, false, [], []), Respond(3, b, false, [], []), Respond(5, c, false, [], [])];
    var e4 := [StreamCredit(5, 100), LocalReset(3, true, [])];
    assert PassingOver(a, b, c) == e1 + e2 + e3 + e4;
    hide Run, Step, Flush, NewProducer;
    RunInTurn(INIT, e1 + e2 + e3, e4);
    RunInTurn(INIT, e1 + e2, e3);
    RunInTurn(INIT, e1, e2);
    TwoRequests();
    ThirdRequest();
    ThreeResponses(a, b, c);
    CreditAndReset(a, b, c);
    NewIsAble(c);
  }

  lemma NewIsAble(m: Message)
    ensures Able(NewProducer(5, m, 0, 1), 100, Readiness(true, true))
  {
  }

  const FIVE_OPEN := FRESH_CONN.(initialWindow := 0, net := map[5 := 100])

  /** When the stream in the middle has been reset, and has not been flushed. */
  function MiddleReset(a: Message, b: Message, c: Message): Engine {
    var e := NewProducer(3, b, 0, 1).(ended := true);
    InLine(a, b, c).(queue := [NewProducer(1, a, 0, 1), e, NewProducer(5, c, 0, 1)], requests := {1, 5},
                     conn := FIVE_OPEN.(wire := [Reset(3)]))
  }

  lemma CreditAndReset(a: Message, b: Message, c: Message)
    ensures var s := Run(InLine(a, b, c), [StreamCredit(5, 100), LocalReset(3, true, [])]);
            && s.fault == NoFault && s.queue == [NewProducer(5, c, 0, 1), NewProducer(1, a, 0, 1)]
            && s.conn.Window(5) == 100 && s.conn.wire == [Reset(3)] == s.pushed
  {
    var s := InLine(a, b, c);
    var s1 := s.(conn := FIVE_OPEN);
    hide Step, Run, Flush, NewProducer, ResetLocally;
    TwoSteps(s, [StreamCredit(5, 100), LocalReset(3, true, [])]);
    StepCredit(s, 5, 100);
    StepIs(s1, LocalReset(3, true, []));
    MiddleIsReset(a, b, c);
    MiddleIsTakenOff(a, b, c);
  }

  lemma StepCredit(s: Engine, sid: StreamId, n: nat)
    requires s.fault == NoFault
    ensures Step(s, StreamCredit(sid, n)) == s.(conn := s.conn.(net := s.conn.net[sid := s.conn.NetOf(sid) + n]))
  {
    StepIs(s, StreamCredit(sid, n));
    QuietIs(s, StreamCredit(sid, n));
    hide Step, QuietStep;
  }

  lemma MiddleIsReset(a: Message, b: Message, c: Message)
    ensures ResetLocally(InLine(a, b, c).(conn := FIVE_OPEN), 3, true) == MiddleReset(a, b, c)
  {
    var s := InLine(a, b, c);
    assert EndStream(s.queue, 3) == MiddleReset(a, b, c).queue;
    assert {1, 3, 5} - {3} == {1, 5} && [] + [Reset(3)] == [Reset(3)];
    hide EndStream, NewProducer;
  }

  lemma MiddleIsTakenOff(a: Message, b: Message, c: Message)
    ensures var s := MiddleReset(a, b, c);
            Flush(s, []) ==
            s.(queue := [NewProducer(5, c, 0, 1), NewProducer(1, a, 0, 1)], conn := s.conn.(taken := 1),
               pushed := [Reset(3)])
  {
    var s, x, e, y := MiddleReset(a, b, c), NewProducer(1, a, 0, 1), NewProducer(3, b, 0, 1), NewProducer(5, c, 0, 1);
    MiddlePass(x, e.(ended := true), y, s.conn);
    hide NewProducer, DataFromProducers, Flush;
    assert {1, 5} - {3} == {1, 5} && [] + [Reset(3)] == [Reset(3)];
    TakesOffOnly(s, [y, x], 3);
  }

  /** A flush whose pass only takes off one ended producer, with frames to push. */
  lemma TakesOffOnly(s: Engine, q: seq<Producer>, sid: StreamId)
    requires s.fault == NoFault && !s.closed && s.hasChannel && s.conn.taken <= |s.conn.wire| && s.conn.Pending() != []
    requires DataFromProducers(s.queue, s.conn, []) == Pass(q, [], [], [sid], NoFault)
    ensures Flush(s, []) ==
            s.(queue := q, conn := s.conn.(taken := |s.conn.wire|), requests := s.requests - {sid},
               hasSendables := q != [], stale := false, pushed := s.pushed + s.conn.Pending())
  {
    assert s.conn.AppendAll([]) == s.conn && s.log + [] == s.log && (set x | x in [sid]) == {sid};
    hide DataFromProducers;
    FlushIs(s, []);
    hide Flush;
  }

  /** With no window for the head, the one behind the ended producer is not asked. */
  lemma MiddlePass(x: Producer, e: Producer, y: Producer, c: Conn)
    requires e.ended && Waiting(x) && Waiting(y) && c.Window(x.sid) == 0
    ensures DataFromProducers([x, e, y], c, []) == Pass([y, x], [], [], [e.sid], NoFault)
  {
    var q := [x, e, y];
    var vs := Visits(q, [], 0, 3);
    MiddleUnmoved(x, e, y);
    assert [x] + [e, y] + [] == q && [x] + [] + [x] == [x, x];
    OneEndedAsked([x], e, y, []);
    hide Visits, Unmoved, Turn, DataFromProducers, Conn.Window, Waiting;
    PassIsDecided(q, c, []);
    forall j | 0 <= j < |vs| ensures !Moves(vs[j], c, []) {
      assert vs[j].head == Asked(vs)[j];
    }
  }

  lemma MiddleUnmoved(x: Producer, e: Producer, y: Producer)
    requires e.ended && !x.ended && !y.ended
    ensures Unmoved([x, e, y], [], 0, 3) == Pass([y, x], [], [], [e.sid], NoFault)
  {
    assert Rotate([x, e, y]) == [e, y, x] && [e, y, x][1..] == [y, x] && Rotate([y, x]) == [x, y];
    assert Rotate([x, y]) == [y, x] && [] + [e.sid] == [e.sid];
    assert Unmoved([y, x], [e.sid], 3, 3) == Pass([y, x], [], [], [e.sid], NoFault);
    assert Unmoved([x, y], [e.sid], 2, 3) == Pass([y, x], [], [], [e.sid], NoFault);
    assert Unmoved([e, y, x], [], 1, 3) == Pass([y, x], [], [], [e.sid], NoFault);
  }
}
