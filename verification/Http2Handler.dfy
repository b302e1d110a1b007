/** `http2_connection_handler` as a state machine: responses, flushing, resets and shutdown. One
    event is one method call; its effects are the source's, in the source's order. */
module Http2Handler {
  import opened Octets
  import opened Http2Stream
  import opened H2Connection
  import opened Http2Producer
  import opened ProducerQueue
  import Priorities

  /** `requests` are the keys of `_requests`; `pushed` is what the channel was given; `handed` maps
      each stream whose response was queued to that response, and `seen` are the stream ids used so
      far. `hurt` are the streams that lost something in a call h2 refused, `stale` tells that the last
      flush raised before it set `hasSendables`, `closing` that the channel was told to close when it
      is done, `fault` the exception that left the last event. */
  datatype Engine = Engine(
    conn: Conn,
    queue: seq<Producer>,
    log: Log,
    requests: set<StreamId>,
    priorities: Priorities.Table,
    closePending: bool,
    closed: bool,
    shutdowned: bool,
    hasSendables: bool,
    hasChannel: bool,
    pushed: seq<Frame>,
    handed: Messages,
    seen: set<StreamId>,
    hurt: set<StreamId>,
    stale: bool,
    closing: bool,
    fault: Fault)

  const INIT :=
    Engine(FRESH_CONN, [], [], {}, [], false, false, false, false, true, [], map[], {}, {}, false, false, NoFault)

  // ----- flushing and shutting down -----------------------------------------------------------

  /** `_has_sendables` is set. */
  function Refresh(s: Engine): Engine {
    s.(hasSendables := s.queue != [], stale := false)
  }

  function Flush(s: Engine, polls: Polls): Engine
    decreases if s.shutdowned then 0 else 1, 3
  {
    var (s1, data) := DataToSend(s, polls);
    var s2 := Refresh(s1);
    if s1.fault != NoFault then s1.(stale := true)
    else if data == [] then s2
    else if !s2.hasChannel then s2.(fault := NoChannel)
    else s2.(pushed := s2.pushed + data)
  }

  /** What the pass leaves behind: exceptions skip the removal of the finished requests. */
  function AfterPass(s: Engine, r: Pass): Engine {
    s.(queue := r.queue, conn := s.conn.AppendAll(r.frames), log := s.log + r.log,
       fault := r.fault, hurt := Hurt(s.hurt, r.fault),
       requests := if r.fault == NoFault then s.requests - (set sid | sid in r.finished) else s.requests)
  }

  function DataToSend(s: Engine, polls: Polls): (Engine, seq<Frame>)
    decreases if s.shutdowned then 0 else 1, 2
  {
    if s.closed then (s, [])
    else
      var s1 := AfterPass(s, DataFromProducers(s.queue, s.conn, polls));
      if s1.fault != NoFault then (s1, [])
      else
        var data := s1.conn.Pending();
        var s2 := s1.(conn := s1.conn.(taken := |s1.conn.wire|));
        if data != [] then (s2, data) else (DataExhausted(s2), [])
  }

  predicate ReadyToShutDown(s: Engine) {
    s.hasChannel && !s.shutdowned && s.closePending && s.queue == [] && s.requests == {}
  }

  function DataExhausted(s: Engine): Engine
    decreases if s.shutdowned then 0 else 1, 1
  {
    if ReadyToShutDown(s) then ProceedShutdown(s) else s
  }

  function ProceedShutdown(s: Engine): Engine
    requires !s.shutdowned
    decreases 1, 0
  {
    Flush(s.(conn := s.conn.Append(Goaway), shutdowned := true), [])
  }

  /** `_terminate_connection`. */
  function TerminateConnection(s: Engine): Engine {
    s.(closePending := false, closed := true, closing := s.closing || s.hasChannel)
  }

  /** The ConnectionTerminated event: the flush behind it finds the connection closed, and only brings
      `hasSendables` up to date. */
  function Terminate(s: Engine): Engine {
    Refresh(TerminateConnection(s))
  }

  function EndBeyond(q: seq<Producer>, last: int): (r: seq<Producer>)
    ensures |r| == |q|
  {
    seq(|q|, i requires 0 <= i < |q| => if q[i].sid > last then q[i].(ended := true) else q[i])
  }

  function EndStream(q: seq<Producer>, sid: StreamId): (r: seq<Producer>)
    ensures |r| == |q|
  {
    seq(|q|, i requires 0 <= i < |q| => if q[i].sid == sid then q[i].(ended := true) else q[i])
  }

  /** `close`; `last` is `last_stream_id`, where the source treats 0 like None. */
  function Close(s: Engine, last: int, polls: Polls): Engine {
    if s.closed || s.closePending then s
    else
      var s1 := DropBeyond(s.(closePending := true), last);
      if s1.hasChannel then Flush(s1, polls) else TerminateConnection(s1)
  }

  function DropBeyond(s: Engine, last: int): Engine {
    if last == 0 then s
    else s.(requests := (set sid | sid in s.requests && sid <= last), queue := EndBeyond(s.queue, last))
  }

  // ----- requests and responses ------------------------------------------------------------------

  predicate RequestAcceptable(s: Engine) {
    s.hasChannel && !s.closePending && !s.closed
  }

  /** The bookkeeping of `handle_request`. h2 never reports a stream twice. */
  function HandleRequest(s: Engine, sid: StreamId): Engine {
    if sid in s.seen then s
    else if !RequestAcceptable(s) then s.(seen := s.seen + {sid})
    else s.(seen := s.seen + {sid}, requests := s.requests + {sid})
  }

  /** Where `handle_response` places a stream, and the weight it gives it. */
  function PriorityOf(s: Engine, sid: StreamId): (nat, nat) {
    var e := Priorities.Find(s.priorities, sid);
    if e.Some? then (e.value.dependsOn, e.value.weight) else (0, 1)
  }

  function Enqueue(s: Engine, sid: StreamId, m: Message): Engine {
    var (dependsOn, weight) := PriorityOf(s, sid);
    s.(priorities := Priorities.Remove(s.priorities, sid),
       queue := Sort(s.queue + [NewProducer(sid, m, dependsOn, weight)]),
       handed := s.handed[sid := m])
  }

  /** `response.done` hands its response over once; `handle_response` drops it when the request is gone. */
  function HandleResponse(s: Engine, sid: StreamId, m: Message, forceClose: bool, polls: Polls, polls': Polls): Engine {
    if sid in s.handed || sid !in s.requests then s
    else
      var s1 := Flush(Enqueue(s, sid, m), polls);
      if s1.fault != NoFault || !forceClose then s1 else Close(s1, 0, polls')
  }

  /** `response.done` catches whatever `handle_response` raises. */
  function Caught(s: Engine): Engine {
    s.(fault := NoFault)
  }

  function RemoveStream(s: Engine, sid: StreamId): Engine {
    s.(requests := s.requests - {sid}, queue := EndStream(s.queue, sid))
  }

  /** `reset_stream`, unless h2 says that the stream is closed already. */
  function ResetLocally(s: Engine, sid: StreamId, accepted: bool): Engine {
    if accepted then RemoveStream(s.(conn := s.conn.Append(Reset(sid))), sid) else s
  }

  // ----- runs ---------------------------------------------------------------------------------------

  datatype Event =
    | Request(sid: StreamId)
    | Respond(sid: StreamId, m: Message, forceClose: bool, polls: Polls, polls': Polls)
    | Flushing(polls: Polls)
    | Closing(last: int, polls: Polls)
    | PeerReset(sid: StreamId)
    | LocalReset(sid: StreamId, accepted: bool, polls: Polls)
    | StreamEnded(sid: StreamId)
    | Terminated
    | ChannelLost
    | ChannelAborted
    | ConnCredit(n: nat)
    | StreamCredit(sid: StreamId, n: nat)
    | Settings(value: WindowSize)
    | H2Output
    | Priority(sid: StreamId, dependsOn: nat, weight: nat, exclusive: bool)

  /** The peer's window updates and SETTINGS, which h2 applies by itself. */
  function Regrant(c: Conn, e: Event): Conn {
    match e
    case ConnCredit(n) => c.(connWindow := c.connWindow + n)
    case StreamCredit(sid, n) => c.(net := c.net[sid := c.NetOf(sid) + n])
    case Settings(value) => c.(initialWindow := value)
    case _ => c
  }

  /** Events that send nothing of a stream and leave the queue alone. */
  predicate IsQuiet(e: Event) {
    || e.Request? || e.StreamEnded? || e.Terminated? || e.ConnCredit? || e.StreamCredit? || e.Settings?
    || e.H2Output? || e.Priority? || e.ChannelAborted?
  }

  function QuietStep(s: Engine, e: Event): Engine
    requires IsQuiet(e)
  {
    match e
    case Request(sid) => HandleRequest(s, sid)
    case StreamEnded(sid) => if sid in s.handed then s.(requests := s.requests - {sid}) else s
    case Terminated => Terminate(s)
    case H2Output => s.(conn := s.conn.Append(Control))
    case ChannelAborted => s.(hasChannel := false)
    case Priority(sid, dependsOn, weight, exclusive) =>
      s.(priorities := Priorities.Update(s.priorities, sid, dependsOn, weight, exclusive))
    case _ => s.(conn := Regrant(s.conn, e))
  }

  function Act(s: Engine, e: Event): Engine {
    if IsQuiet(e) then QuietStep(s, e)
    else match e
      case Respond(sid, m, forceClose, polls, polls') => Caught(HandleResponse(s, sid, m, forceClose, polls, polls'))
      case Flushing(polls) => Flush(s, polls)
      case Closing(last, polls) => Close(s, last, polls)
      case PeerReset(sid) => RemoveStream(s, sid)
      case LocalReset(sid, accepted, polls) => Flush(ResetLocally(s, sid, accepted), polls)
      case ChannelLost => Close(s.(hasChannel := false), 0, [])
  }

  /** The connection goes on from the state an exception left behind, whoever has caught it. A run in
      which nobody does is one that ends there, or goes on with the loss of the channel. */
  function Step(s: Engine, e: Event): Engine {
    Act(Caught(s), e)
  }

  function Run(s: Engine, events: seq<Event>): Engine {
    if events == [] then s else Step(Run(s, events[..|events| - 1]), events[|events| - 1])
  }

  lemma StepIs(s: Engine, e: Event)
    requires s.fault == NoFault
    ensures e.Respond? ==> Step(s, e) == Caught(HandleResponse(s, e.sid, e.m, e.forceClose, e.polls, e.polls'))
    ensures e.Flushing? ==> Step(s, e) == Flush(s, e.polls)
    ensures e.Closing? ==> Step(s, e) == Close(s, e.last, e.polls)
    ensures e.ChannelLost? ==> Step(s, e) == Close(s.(hasChannel := false), 0, [])
    ensures e.PeerReset? ==> Step(s, e) == RemoveStream(s, e.sid)
    ensures e.LocalReset? ==> Step(s, e) == Flush(ResetLocally(s, e.sid, e.accepted), e.polls)
    ensures IsQuiet(e) ==> Step(s, e) == QuietStep(s, e)
  {
    assert Caught(s) == s;
    hide Flush, Close, HandleResponse, Caught, ResetLocally, RemoveStream, QuietStep;
  }

  lemma StepCatches(s: Engine, e: Event)
    ensures Step(s, e) == Step(Caught(s), e) && (Inv(s) ==> Inv(Caught(s)))
  {
    assert Caught(Caught(s)) == Caught(s);
    hide Act, QueueOk, QuietAfterGoaway;
  }

  lemma QuietIs(s: Engine, e: Event)
    requires IsQuiet(e)
    ensures e.Request? ==> QuietStep(s, e) == HandleRequest(s, e.sid)
    ensures e.StreamEnded? && e.sid in s.handed ==> QuietStep(s, e) == s.(requests := s.requests - {e.sid})
    ensures e.StreamEnded? && e.sid !in s.handed ==> QuietStep(s, e) == s
    ensures e.Terminated? ==> QuietStep(s, e) == Terminate(s)
    ensures e.H2Output? ==> QuietStep(s, e) == s.(conn := s.conn.Append(Control))
    ensures e.ChannelAborted? ==> QuietStep(s, e) == s.(hasChannel := false)
    ensures e.Priority? ==>
              QuietStep(s, e) ==
              s.(priorities := Priorities.Update(s.priorities, e.sid, e.dependsOn, e.weight, e.exclusive))
    ensures e.ConnCredit? || e.StreamCredit? || e.Settings? ==> QuietStep(s, e) == s.(conn := Regrant(s.conn, e))
  {
    hide HandleRequest, Terminate, Regrant, Conn.Append, Priorities.Update;
  }

  // ----- the invariant ---------------------------------------------------------------------------------

  /** GOAWAY at most once, and after it no HEADERS or DATA frame: section 6.8 of RFC 7540. */
  ghost predicate QuietAfterGoaway(wire: seq<Frame>) {
    forall i, j :: 0 <= i < j < |wire| && wire[i].Goaway? ==> !Carries(wire[j]) && !wire[j].Goaway?
  }

  ghost predicate ShutdownOk(s: Engine) {
    && QuietAfterGoaway(s.conn.wire)
    && (s.shutdowned <==> Goaway in s.conn.wire)
    && (s.shutdowned ==> s.queue == [] && s.requests == {} && (s.closePending || s.closed))
  }

  ghost predicate RequestsOk(s: Engine) {
    && s.requests <= s.seen && s.handed.Keys <= s.seen
    && (forall p :: p in s.queue && p.ended ==> p.sid !in s.requests || p.sid in s.hurt)
    && (forall sid :: sid in s.requests && sid in s.handed ==> sid in Ids(s.queue) || sid in s.hurt)
  }

  ghost predicate ChannelOk(s: Engine) {
    && s.conn.taken <= |s.conn.wire|
    && if s.hasChannel then s.pushed == s.conn.wire[..s.conn.taken] else s.pushed <= s.conn.wire
  }

  /** Holds inside an event as well, and in the states exceptions leave behind. */
  ghost predicate Core(s: Engine) {
    && ShutdownOk(s) && ChannelOk(s) && s.conn.connWindow >= 0
    && QueueOk(s.handed, s.hurt, s.queue, s.conn.wire, s.log) && RequestsOk(s)
  }

  /** Holds after every event, in the states exceptions leave behind as well. */
  ghost predicate Inv(s: Engine) {
    Core(s) && (!s.stale ==> (s.hasSendables <==> s.queue != []))
  }

  // ----- flush in closed form -----------------------------------------------------------------------------

  /** The GOAWAY goes straight to the channel, and the nested flush ends there. */
  lemma ProceedShutdownIs(s: Engine)
    requires ReadyToShutDown(s) && !s.closed && s.conn.Pending() == [] && s.conn.taken == |s.conn.wire|
    requires s.fault == NoFault
    ensures var c := s.conn.Append(Goaway);
            ProceedShutdown(s) ==
              s.(conn := c.(taken := |c.wire|), shutdowned := true, hasSendables := false, stale := false,
                 pushed := s.pushed + [Goaway])
  {
    var c := s.conn.Append(Goaway);
    var s0 := s.(conn := c, shutdowned := true);
    assert DataFromProducers([], c, []) == Pass([], [], [], [], NoFault);
    assert c.AppendAll([]) == c && s.log + [] == s.log;
    assert AfterPass(s0, DataFromProducers([], c, [])).requests == s0.requests;
    assert AfterPass(s0, DataFromProducers([], c, [])) == s0;
    assert c.Pending() == [Goaway];
    var s1 := s0.(conn := c.(taken := |c.wire|));
    assert DataToSend(s0, []) == (s1, [Goaway]);
    assert Flush(s0, []) == s1.(hasSendables := false, stale := false, pushed := s1.pushed + [Goaway]);
  }

  /** Fetch what is pending and give it to the channel. */
  function Push(s: Engine): Engine {
    var data, s1 := s.conn.Pending(), Refresh(s.(conn := s.conn.(taken := |s.conn.wire|)));
    if s.hasChannel then s1.(pushed := s.pushed + data) else s1.(fault := NoChannel)
  }

  /** A flush is a pass, then a push; when there is nothing to push, the shutdown may go ahead. */
  lemma FlushIs(s: Engine, polls: Polls)
    requires s.fault == NoFault && s.conn.taken <= |s.conn.wire|
    ensures var s1 := AfterPass(s, DataFromProducers(s.queue, s.conn, polls));
            Flush(s, polls) ==
              if s.closed then Refresh(s)
              else if s1.fault != NoFault then s1.(stale := true)
              else if s1.conn.Pending() != [] then Push(s1)
              else if ReadyToShutDown(s1) then Push(s1.(conn := s1.conn.Append(Goaway), shutdowned := true))
              else Refresh(s1)
  {
    if !s.closed {
      var r := DataFromProducers(s.queue, s.conn, polls);
      var s1 := AfterPass(s, r);
      AppendAllFacts(s.conn, r.frames);
      hide DataFromProducers;
      if s1.fault == NoFault && s1.conn.Pending() == [] {
        NothingToSend(s, polls);
        hide DataToSend, AfterPass;
        if ReadyToShutDown(s1) {
          ProceedShutdownIs(s1);
          assert s1.conn.Append(Goaway).Pending() == [Goaway];
        }
      }
    }
  }

  lemma NothingToSend(s: Engine, polls: Polls)
    requires !s.closed && s.conn.taken <= |s.conn.wire|
    requires var s1 := AfterPass(s, DataFromProducers(s.queue, s.conn, polls));
             s1.fault == NoFault && s1.conn.Pending() == []
    ensures var s1 := AfterPass(s, DataFromProducers(s.queue, s.conn, polls));
            && s1.conn.taken == |s1.conn.wire| && s1.closed == s.closed && s1.shutdowned == s.shutdowned
            && DataToSend(s, polls) == (DataExhausted(s1), [])
  {
    var r := DataFromProducers(s.queue, s.conn, polls);
    AppendAllFacts(s.conn, r.frames);
    hide DataFromProducers, DataExhausted;
    var s1 := AfterPass(s, r);
    assert s1.(conn := s1.conn.(taken := |s1.conn.wire|)) == s1;
  }

  // ----- every event keeps the invariant -----------------------------------------------------------------------

  lemma PassRequests(s: Engine, r: Pass)
    requires RequestsOk(s) && PassShape(s.queue, r)
    ensures RequestsOk(AfterPass(s, r))
  {
    hide Logged;
    var s1 := AfterPass(s, r);
    forall sid | sid in s1.requests && sid in s1.handed && sid !in s1.hurt ensures sid in Ids(s1.queue) {
      assert sid in Ids(s.queue);
      var p :| p in s.queue && p.sid == sid;
      assert !p.ended;
      LoggedNothing(sid);
      assert sid !in (set x | x in r.finished);
    }
  }

  lemma LoggedNothing(sid: StreamId)
    ensures Logged([], sid) == []
  {
  }

  lemma PassShutdown(s: Engine, r: Pass)
    requires ShutdownOk(s) && ChannelOk(s) && s.fault == NoFault && PassShape(s.queue, r)
    requires s.queue == [] ==> r == Pass([], [], [], [], NoFault)
    requires r.fault != NoChannel
    ensures ShutdownOk(AfterPass(s, r)) && ChannelOk(AfterPass(s, r))
  {
    var wire, wire' := s.conn.wire, AfterPass(s, r).conn.wire;
    AppendAllFacts(s.conn, r.frames);
    assert wire'[..s.conn.taken] == wire[..s.conn.taken];
    if s.queue == [] {
      assert wire + [] == wire;
    } else {
      assert Goaway !in wire;
      assert forall f :: f in wire' <==> f in wire || f in r.frames;
      assert Goaway !in wire';
    }
  }

  lemma PassCore(s: Engine, polls: Polls)
    requires Core(s) && s.fault == NoFault
    ensures var s1 := AfterPass(s, DataFromProducers(s.queue, s.conn, polls)); Core(s1) && s1.fault != NoChannel
  {
    var r := DataFromProducers(s.queue, s.conn, polls);
    PassKeeps(s.handed, s.hurt, s.queue, s.conn, s.log, polls, 0, |s.queue|);
    PassIsShaped(s.handed, s.hurt, s.queue, s.conn, s.log, polls, 0, |s.queue|);
    PassFaults(s.queue, s.conn, polls, 0, |s.queue|);
    PassFits(s.queue, s.conn, polls, 0, |s.queue|);
    CoreAfterPass(s, r);
  }

  lemma CoreAfterPass(s: Engine, r: Pass)
    requires Core(s) && s.fault == NoFault && PassShape(s.queue, r) && r.fault != NoChannel
    requires QueueOk(s.handed, Hurt(s.hurt, r.fault), r.queue, s.conn.wire + r.frames, s.log + r.log)
    requires Fits(s.conn, r.frames, 16384)
    requires s.queue == [] ==> r == Pass([], [], [], [], NoFault)
    ensures Core(AfterPass(s, r))
  {
    AppendAllFacts(s.conn, r.frames);
    FitsKeepsConnWindow(s.conn, r.frames, 16384);
    PassShutdown(s, r);
    PassRequests(s, r);
  }

  lemma PushCore(s: Engine)
    requires Core(s) && s.fault == NoFault
    ensures Inv(Push(s))
  {
    var data := s.conn.Pending();
    assert s.conn.wire[..s.conn.taken] + data == s.conn.wire;
    assert s.conn.wire[..|s.conn.wire|] == s.conn.wire;
  }

  lemma GoawayCore(s: Engine)
    requires Core(s) && s.fault == NoFault && ReadyToShutDown(s)
    ensures Core(s.(conn := s.conn.Append(Goaway), shutdowned := true))
  {
    OtherFrame(s, Goaway);
  }

  /** A frame of no stream changes no client's view. */
  lemma OtherFrame(s: Engine, f: Frame)
    requires Core(s) && s.fault == NoFault && !Carries(f)
    ensures var wire := s.conn.Append(f).wire;
            && ClientsOk(s.handed, s.hurt, wire, s.log) && QueueOk(s.handed, s.hurt, s.queue, wire, s.log)
            && wire == s.conn.wire + [f] && wire[..s.conn.taken] == s.conn.wire[..s.conn.taken]
            && DataSent(wire) == DataSent(s.conn.wire)
            && forall sid :: Proj(wire, sid) == Proj(s.conn.wire, sid)
  {
    var wire := s.conn.wire + [f];
    forall sid ensures Proj(wire, sid) == Proj(s.conn.wire, sid) {
      assert wire[..|wire| - 1] == s.conn.wire;
    }
    assert wire[..|wire| - 1] == s.conn.wire;
    forall sid ensures ClientOk(s.handed, s.hurt, wire, s.log, sid) {
      assert ClientOk(s.handed, s.hurt, s.conn.wire, s.log, sid);
    }
    forall p | p in s.queue ensures Queued(s.handed, s.hurt, p, wire, s.log) {
      assert Queued(s.handed, s.hurt, p, s.conn.wire, s.log);
    }
  }

  lemma FlushKeeps(s: Engine, polls: Polls)
    requires Core(s) && s.fault == NoFault
    ensures Inv(Flush(s, polls))
  {
    FlushIs(s, polls);
    hide Flush, DataFromProducers, Core, Inv;
    if s.closed {
      SendablesKeep(s);
    } else {
      var s1 := AfterPass(s, DataFromProducers(s.queue, s.conn, polls));
      PassCore(s, polls);
      hide AfterPass;
      if s1.fault != NoFault {
        BrokenKeeps(s1);
      } else if s1.conn.Pending() != [] {
        PushCore(s1);
      } else if ReadyToShutDown(s1) {
        GoawayCore(s1);
        PushCore(s1.(conn := s1.conn.Append(Goaway), shutdowned := true));
      } else {
        SendablesKeep(s1);
      }
    }
  }

  lemma SendablesKeep(s: Engine)
    requires Core(s)
    ensures Inv(Refresh(s))
  {
    hide QueueOk, QuietAfterGoaway;
  }

  lemma BrokenKeeps(s: Engine)
    requires Core(s)
    ensures Inv(s.(stale := true))
  {
    hide QueueOk, QuietAfterGoaway;
  }

  /** The queue, with some producers ended from outside. */
  ghost predicate SomeEnded(q: seq<Producer>, q': seq<Producer>) {
    |q'| == |q| && forall i :: 0 <= i < |q| ==> q'[i] == q[i] || q'[i] == q[i].(ended := true)
  }

  lemma SomeEndedIds(q: seq<Producer>, q': seq<Producer>)
    requires SomeEnded(q, q')
    ensures Ids(q') == Ids(q) && (Distinct(q) ==> Distinct(q'))
  {
    forall sid | sid in Ids(q) ensures sid in Ids(q') {
      var i :| 0 <= i < |q| && q[i].sid == sid;
      assert q'[i] in q';
    }
    forall sid | sid in Ids(q') ensures sid in Ids(q) {
      var i :| 0 <= i < |q| && q'[i].sid == sid;
      assert q[i] in q;
    }
  }

  lemma SomeEndedQueue(h: Messages, hurt: set<StreamId>, q: seq<Producer>, q': seq<Producer>, wire: seq<Frame>,
                       log: Log)
    requires QueueOk(h, hurt, q, wire, log) && SomeEnded(q, q')
    ensures QueueOk(h, hurt, q', wire, log)
  {
    SomeEndedIds(q, q');
    hide ClientsOk, Read, Proj, Logged;
    forall p | p in q' ensures Queued(h, hurt, p, wire, log) {
      var i :| 0 <= i < |q| && q'[i] == p;
      assert q[i] in q;
      assert Queued(h, hurt, q[i], wire, log);
    }
  }

  /** Ending producers from outside leaves what they track alone. */
  lemma EndingKeeps(s: Engine, q: seq<Producer>, requests: set<StreamId>)
    requires Core(s) && s.fault == NoFault && SomeEnded(s.queue, q)
    requires requests <= s.requests && forall p :: p in q && p.ended ==> p.sid !in requests || p.sid in s.hurt
    ensures Core(s.(queue := q, requests := requests))
  {
    SomeEndedIds(s.queue, q);
    SomeEndedQueue(s.handed, s.hurt, s.queue, q, s.conn.wire, s.log);
    assert |q| == |s.queue|;
    hide QueueOk, QuietAfterGoaway, Ids, SomeEnded;
  }

  lemma RemoveStreamKeeps(s: Engine, sid: StreamId)
    requires Core(s) && s.fault == NoFault
    ensures Core(RemoveStream(s, sid)) && |RemoveStream(s, sid).queue| == |s.queue|
  {
    var q := EndStream(s.queue, sid);
    forall p | p in q && p.ended ensures p.sid !in s.requests - {sid} || p.sid in s.hurt {
      var i :| 0 <= i < |q| && q[i] == p;
      assert s.queue[i] in s.queue;
    }
    EndingKeeps(s, q, s.requests - {sid});
  }

  lemma DropBeyondKeeps(s: Engine, last: int)
    requires Core(s) && s.fault == NoFault
    ensures Core(DropBeyond(s, last)) && |DropBeyond(s, last).queue| == |s.queue|
  {
    if last != 0 {
      var q, requests := EndBeyond(s.queue, last), set sid | sid in s.requests && sid <= last;
      forall p | p in q && p.ended ensures p.sid !in requests || p.sid in s.hurt {
        var i :| 0 <= i < |q| && q[i] == p;
        assert s.queue[i] in s.queue;
      }
      EndingKeeps(s, q, requests);
    }
  }

  lemma CloseKeeps(s: Engine, last: int, polls: Polls)
    requires Inv(s) && s.fault == NoFault
    ensures Inv(Close(s, last, polls))
  {
    if !s.closed && !s.closePending {
      var s0 := s.(closePending := true);
      DropBeyondKeeps(s0, last);
      if s.hasChannel {
        FlushKeeps(DropBeyond(s0, last), polls);
      }
    }
  }

  lemma NewIsQueued(h: Messages, hurt: set<StreamId>, wire: seq<Frame>, log: Log, sid: StreamId, m: Message,
                    dependsOn: nat, weight: nat)
    requires ClientOk(h, hurt, wire, log, sid) && sid !in h
    ensures Queued(h[sid := m], hurt, NewProducer(sid, m, dependsOn, weight), wire, log)
    ensures ClientOk(h[sid := m], hurt, wire, log, sid)
  {
    var p := NewProducer(sid, m, dependsOn, weight);
    assert [] + Flatten(p.more) == Flatten(p.more);
  }

  lemma EnqueueQueue(h: Messages, hurt: set<StreamId>, q: seq<Producer>, wire: seq<Frame>, log: Log, sid: StreamId,
                     m: Message, dependsOn: nat, weight: nat)
    requires QueueOk(h, hurt, q, wire, log) && sid !in h
    ensures QueueOk(h[sid := m], hurt, q + [NewProducer(sid, m, dependsOn, weight)], wire, log)
  {
    hide Read, Proj, Logged, Settled, Tracks, NewProducer;
    var h' := h[sid := m];
    var p := NewProducer(sid, m, dependsOn, weight);
    assert ClientOk(h, hurt, wire, log, sid);
    NewIsQueued(h, hurt, wire, log, sid, m, dependsOn, weight);
    forall x ensures ClientOk(h', hurt, wire, log, x) {
      assert ClientOk(h, hurt, wire, log, x);
    }
    forall x | x in q ensures x.sid != sid && Queued(h', hurt, x, wire, log) {
      assert Queued(h, hurt, x, wire, log);
    }
    assert p.sid == sid by { NewHasId(sid, m, dependsOn, weight); }
  }

  lemma NewHasId(sid: StreamId, m: Message, dependsOn: nat, weight: nat)
    ensures NewProducer(sid, m, dependsOn, weight).sid == sid
  {
  }

  lemma SortKeepsQueue(h: Messages, hurt: set<StreamId>, q: seq<Producer>, wire: seq<Frame>, log: Log)
    requires QueueOk(h, hurt, q, wire, log)
    ensures QueueOk(h, hurt, Sort(q), wire, log) && Ids(Sort(q)) == Ids(q) && |Sort(q)| == |q|
    ensures forall x :: x in Sort(q) <==> x in q
  {
    SortFacts(q);
  }

  lemma EnqueueKeeps(s: Engine, sid: StreamId, m: Message)
    requires Core(s) && s.fault == NoFault && sid in s.requests && sid !in s.handed
    ensures Core(Enqueue(s, sid, m))
  {
    var (dependsOn, weight) := PriorityOf(s, sid);
    var p := NewProducer(sid, m, dependsOn, weight);
    var q := s.queue + [p];
    EnqueueQueue(s.handed, s.hurt, s.queue, s.conn.wire, s.log, sid, m, dependsOn, weight);
    SortKeepsQueue(s.handed[sid := m], s.hurt, q, s.conn.wire, s.log);
    assert forall x :: x in q <==> x == p || x in s.queue;
    assert Ids(q) == Ids(s.queue) + {sid};
  }

  lemma RespondKeeps(s: Engine, sid: StreamId, m: Message, forceClose: bool, polls: Polls, polls': Polls)
    requires Inv(s) && s.fault == NoFault
    ensures Inv(HandleResponse(s, sid, m, forceClose, polls, polls'))
    ensures Inv(Caught(HandleResponse(s, sid, m, forceClose, polls, polls')))
  {
    if sid !in s.handed && sid in s.requests {
      EnqueueKeeps(s, sid, m);
      var s1 := Flush(Enqueue(s, sid, m), polls);
      FlushKeeps(Enqueue(s, sid, m), polls);
      if s1.fault == NoFault && forceClose {
        CloseKeeps(s1, 0, polls');
      }
    }
  }

  lemma LocalResetKeeps(s: Engine, sid: StreamId, accepted: bool)
    requires Inv(s) && s.fault == NoFault
    ensures Inv(ResetLocally(s, sid, accepted))
  {
    if accepted {
      OtherFrame(s, Reset(sid));
      RemoveStreamKeeps(s.(conn := s.conn.Append(Reset(sid))), sid);
    }
  }

  lemma RegrantKeeps(s: Engine, e: Event)
    requires Inv(s)
    ensures Inv(s.(conn := Regrant(s.conn, e)))
  {
    hide QueueOk, QuietAfterGoaway;
  }

  lemma StepKeeps(s: Engine, e: Event)
    requires Inv(s)
    ensures Inv(Step(s, e))
  {
    StepCatches(s, e);
    var s0 := Caught(s);
    assert s0.fault == NoFault && Core(s0);
    hide Step, Flush, Close, HandleResponse, Inv, Core, Caught, RemoveStream, ResetLocally, QuietStep;
    StepIs(s0, e);
    match e
    case Respond(sid, m, forceClose, polls, polls') => RespondKeeps(s0, sid, m, forceClose, polls, polls');
    case Flushing(polls) => FlushKeeps(s0, polls);
    case Closing(last, polls) => CloseKeeps(s0, last, polls);
    case PeerReset(sid) => PeerResetKeeps(s0, sid);
    case LocalReset(sid, accepted, polls) => ResetAndFlushKeeps(s0, sid, accepted, polls);
    case ChannelLost => LosingChannelKeeps(s0);
    case _ => QuietStepKeeps(s0, e);
  }

  lemma PeerResetKeeps(s: Engine, sid: StreamId)
    requires Inv(s) && s.fault == NoFault
    ensures Inv(RemoveStream(s, sid))
  {
    hide Core;
    RemoveStreamKeeps(s, sid);
  }

  lemma ResetAndFlushKeeps(s: Engine, sid: StreamId, accepted: bool, polls: Polls)
    requires Inv(s) && s.fault == NoFault
    ensures Inv(Flush(ResetLocally(s, sid, accepted), polls))
  {
    hide Core, Flush;
    LocalResetKeeps(s, sid, accepted);
    FlushKeeps(ResetLocally(s, sid, accepted), polls);
  }

  lemma H2OutputKeeps(s: Engine)
    requires Inv(s) && s.fault == NoFault
    ensures Inv(s.(conn := s.conn.Append(Control)))
  {
    OtherFrame(s, Control);
  }

  lemma QuietStepKeeps(s: Engine, e: Event)
    requires Inv(s) && s.fault == NoFault && IsQuiet(e)
    ensures Inv(QuietStep(s, e))
  {
    hide Inv, HandleRequest, Terminate, Priorities.Update;
    match e
    case Request(sid) => RequestKeeps(s, sid);
    case StreamEnded(sid) => StreamEndedKeeps(s, sid);
    case Terminated => TerminateKeeps(s);
    case H2Output => H2OutputKeeps(s);
    case ChannelAborted => AbortKeeps(s);
    case Priority(sid, dependsOn, weight, exclusive) =>
      PriorityKeeps(s, Priorities.Update(s.priorities, sid, dependsOn, weight, exclusive));
    case _ => RegrantKeeps(s, e);
  }

  lemma StreamEndedKeeps(s: Engine, sid: StreamId)
    requires Inv(s) && s.fault == NoFault
    ensures Inv(s.(requests := s.requests - {sid}))
  {
    hide QueueOk, QuietAfterGoaway;
  }

  lemma TerminateKeeps(s: Engine)
    requires Inv(s) && s.fault == NoFault
    ensures Inv(Terminate(s))
  {
    hide QueueOk, QuietAfterGoaway;
  }

  lemma AbortKeeps(s: Engine)
    requires Inv(s) && s.fault == NoFault
    ensures Inv(s.(hasChannel := false))
  {
    hide QueueOk, QuietAfterGoaway;
  }

  lemma PriorityKeeps(s: Engine, priorities: Priorities.Table)
    requires Inv(s) && s.fault == NoFault
    ensures Inv(s.(priorities := priorities))
  {
    hide QueueOk, QuietAfterGoaway;
  }

  lemma RequestKeeps(s: Engine, sid: StreamId)
    requires Inv(s) && s.fault == NoFault
    ensures Inv(HandleRequest(s, sid))
  {
    assert forall p :: p in s.queue ==> Queued(s.handed, s.hurt, p, s.conn.wire, s.log);
    hide QueueOk, QuietAfterGoaway, Relates;
  }

  lemma LosingChannelKeeps(s: Engine)
    requires Inv(s) && s.fault == NoFault
    ensures Inv(Close(s.(hasChannel := false), 0, []))
  {
  }

  lemma {:induction false} RunKeeps(events: seq<Event>)
    ensures Inv(Run(INIT, events))
  {
    if events == [] {
      forall sid ensures ClientOk(INIT.handed, {}, [], [], sid) {
      }
    } else {
      RunKeeps(events[..|events| - 1]);
      StepKeeps(Run(INIT, events[..|events| - 1]), events[|events| - 1]);
    }
  }
}
