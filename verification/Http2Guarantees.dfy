/** What the HTTP/2 handler guarantees over whole runs, for every sequence of events. */
module Http2Guarantees {
  import opened Http2Stream
  import opened H2Connection
  import opened Http2Producer
  import opened ProducerQueue
  import opened PassOrder
  import opened Http2Handler
  import opened Wrappers

  lemma {:induction false} RunInTurn(s: Engine, a: seq<Event>, b: seq<Event>)
    ensures Run(s, a + b) == Run(Run(s, a), b)
  {
    if b == [] {
      assert a + b == a;
    } else {
      assert (a + b)[..|a + b| - 1] == a + b[..|b| - 1];
      RunInTurn(s, a, b[..|b| - 1]);
    }
  }

  lemma {:induction false} RunKeepsFrom(s: Engine, events: seq<Event>)
    requires Inv(s)
    ensures Inv(Run(s, events))
  {
    if events != [] {
      RunKeepsFrom(s, events[..|events| - 1]);
      StepKeeps(Run(s, events[..|events| - 1]), events[|events| - 1]);
    }
  }

  // ----- interleaving refines sequential sending -------------------------------------------------

  /** A client that can make sense of all frames so far could make sense of the first k. */
  lemma {:induction false} PrefixIsPartial(m: Message, frames: seq<Frame>, k: nat)
    requires k <= |frames|
    requires Partial(m, Read(frames)) || Complete(m, Read(frames))
    ensures k < |frames| ==> Partial(m, Read(frames[..k]))
    decreases |frames|
  {
    if k < |frames| {
      var front := frames[..|frames| - 1];
      var r := Read(front);
      assert Read(frames) == Accept(r, frames[|frames| - 1]);
      assert Partial(m, r) by {
        if r.Open? {
          assert r.got <= Content(m);
        }
      }
      PrefixIsPartial(m, front, k);
      assert frames[..k] == front[..k];
      if k == |front| { assert front[..k] == front; }
    }
  }

  lemma {:induction false} ProjPrefix(wire: seq<Frame>, k: nat, sid: StreamId)
    requires k <= |wire|
    ensures Proj(wire[..k], sid) <= Proj(wire, sid)
  {
    assert wire == wire[..k] + wire[k..];
    ProjAppend(wire[..k], wire[k..], sid);
  }

  /** What a client holds of a response that lost octets, or its end, in a refused call: an open
      stream, or a complete-looking response that is short. Never a malformed one. */
  ghost predicate Damage(m: Message, r: Reader) {
    (r.Open? && r.headers == m.headers) || Short(m, r)
  }

  /** Section 8.1 of RFC 7540, in every run: the frames of a stream, whatever else was sent between
      them, are read by its client as a beginning of the response handed over for that stream,
      unless a refused call took octets or the end from it; as the whole of it exactly when the log
      hook was called and nothing was taken. The hook is called once at most, with the body's length;
      a stream without a response has no frame. */
  lemma InterleavingRefinesSequential(events: seq<Event>, sid: StreamId)
    ensures var s := Run(INIT, events);
            var r, entries := Read(Proj(s.conn.wire, sid)), Logged(s.log, sid);
            && (sid !in s.handed ==> Proj(s.conn.wire, sid) == [] && entries == [] && sid !in s.hurt)
            && (sid in s.handed ==>
                  var m := s.handed[sid];
                  && (sid in s.hurt ==> Damage(m, r))
                  && (sid !in s.hurt ==> Partial(m, r) || Complete(m, r))
                  && (Complete(m, r) <==> entries != [] && sid !in s.hurt)
                  && (entries == [] || entries == [|Content(m)|]))
  {
    RunKeeps(events);
    var s := Run(INIT, events);
    assert ClientOk(s.handed, s.hurt, s.conn.wire, s.log, sid);
    hide Read, Proj, Logged, Core, Content;
    if sid !in s.handed {
      ProjCarries(s.conn.wire, sid);
      IdleIsEmpty(Proj(s.conn.wire, sid));
    }
  }

  lemma IdleIsEmpty(frames: seq<Frame>)
    requires Read(frames) == Idle
    ensures frames == []
  {
  }

  /** Frames that make sense to a client: those of a response, of a beginning of it, or of a damaged one. */
  ghost predicate Sensible(m: Message, hurt: bool, r: Reader) {
    if hurt then r == Idle || Damage(m, r) else Partial(m, r) || Complete(m, r)
  }

  lemma {:induction false} PrefixIsDamaged(m: Message, frames: seq<Frame>, k: nat)
    requires k <= |frames| && Sensible(m, true, Read(frames))
    ensures Sensible(m, true, Read(frames[..k]))
    decreases |frames|
  {
    if k == |frames| {
      assert frames[..k] == frames;
    } else {
      var front := frames[..|frames| - 1];
      assert Read(frames) == Accept(Read(front), frames[|frames| - 1]);
      assert frames[..k] == front[..k];
      PrefixIsDamaged(m, front, k);
    }
  }

  lemma BeginningReads(m: Message, hurt: bool, wire: seq<Frame>, k: nat, sid: StreamId)
    requires k <= |wire| && Sensible(m, hurt, Read(Proj(wire, sid)))
    ensures Sensible(m, hurt, Read(Proj(wire[..k], sid)))
  {
    ProjPrefix(wire, k, sid);
    var all, part := Proj(wire, sid), Proj(wire[..k], sid);
    assert part == all[..|part|];
    if hurt {
      PrefixIsDamaged(m, all, |part|);
    } else {
      PrefixIsPartial(m, all, |part|);
      if |part| == |all| { assert part == all; }
    }
  }

  /** The same for what was really written to the socket so far, a beginning of the frames. */
  lemma ChannelSeesBeginning(events: seq<Event>, sid: StreamId)
    ensures var s := Run(INIT, events);
            && s.pushed <= s.conn.wire
            && (sid in s.handed ==> Sensible(s.handed[sid], sid in s.hurt, Read(Proj(s.pushed, sid))))
  {
    RunKeeps(events);
    InterleavingRefinesSequential(events, sid);
    var s := Run(INIT, events);
    assert s.pushed == s.conn.wire[..|s.pushed|];
    hide Read, Proj, Core, Run;
    if sid in s.handed {
      BeginningReads(s.handed[sid], sid in s.hurt, s.conn.wire, |s.pushed|, sid);
    }
  }

  /** END_STREAM is on the last frame of a logged response and on no other frame of any response, and
      the DATA frames carry the octets that were logged, or fewer when a refused call took some. */
  lemma OneEndStream(events: seq<Event>, sid: StreamId)
    ensures var s := Run(INIT, events); var frames := Proj(s.conn.wire, sid);
            && (forall i :: 0 <= i < |frames| ==> (Ends(frames[i]) <==> i == |frames| - 1 && Logged(s.log, sid) != []))
            && (Logged(s.log, sid) != [] ==>
                  && frames != [] && |Logged(s.log, sid)| == 1
                  && if sid in s.hurt then DataSent(frames) < Logged(s.log, sid)[0]
                     else DataSent(frames) == Logged(s.log, sid)[0])
  {
    RunKeeps(events);
    InterleavingRefinesSequential(events, sid);
    var s := Run(INIT, events);
    assert ClientOk(s.handed, s.hurt, s.conn.wire, s.log, sid);
    var frames := Proj(s.conn.wire, sid);
    hide Proj, Logged, Inv, Run, Content;
    EndStreamIsLast(frames);
    ReadCountsData(frames);
  }

  lemma StepRequest(s: Engine, sid: StreamId)
    requires s.fault == NoFault
    ensures Step(s, Request(sid)) == HandleRequest(s, sid)
  {
    StepIs(s, Request(sid));
    QuietIs(s, Request(sid));
    hide Step, QuietStep;
  }

  lemma StepSettings(s: Engine, value: WindowSize)
    requires s.fault == NoFault
    ensures Step(s, Settings(value)) == s.(conn := s.conn.(initialWindow := value))
  {
    StepIs(s, Settings(value));
    QuietIs(s, Settings(value));
    hide Step, QuietStep;
  }

  lemma StepRespond(s: Engine, sid: StreamId, m: Message, polls: Polls)
    requires s.fault == NoFault
    ensures Step(s, Respond(sid, m, false, polls, [])) == Caught(HandleResponse(s, sid, m, false, polls, []))
  {
    StepIs(s, Respond(sid, m, false, polls, []));
    hide Step;
  }

  lemma StepFlushing(s: Engine, polls: Polls)
    requires s.fault == NoFault
    ensures Step(s, Flushing(polls)) == Flush(s, polls)
  {
    StepIs(s, Flushing(polls));
    hide Step;
  }

  lemma StepClosing(s: Engine, last: int, polls: Polls)
    requires s.fault == NoFault
    ensures Step(s, Closing(last, polls)) == Close(s, last, polls)
  {
    StepIs(s, Closing(last, polls));
    hide Step;
  }

  /** `close` returns at once while a close is pending. */
  lemma StepLost(s: Engine)
    requires s.fault == NoFault && s.closePending
    ensures Step(s, ChannelLost) == s.(hasChannel := false)
  {
    hide Flush, HandleResponse;
  }

  lemma RunMore(s: Engine, a: seq<Event>, n: nat)
    requires 0 < n <= |a|
    ensures Run(s, a[..n]) == Step(Run(s, a[..n - 1]), a[n - 1])
  {
    assert a[..n][..n - 1] == a[..n - 1];
  }

  lemma OneStep(s: Engine, e: Event)
    ensures Run(s, [e]) == Step(s, e)
  {
    assert [e][..0] == [];
  }

  lemma TwoSteps(s: Engine, a: seq<Event>)
    requires |a| == 2
    ensures Run(s, a) == Step(Step(s, a[0]), a[1])
  {
    RunMore(s, a, 2);
    RunMore(s, a, 1);
    assert a[..2] == a && a[..0] == [] && Run(s, []) == s;
    hide Step, Run;
  }

  lemma ThreeSteps(s: Engine, a: seq<Event>)
    requires |a| == 3
    ensures Run(s, a) == Step(Step(Step(s, a[0]), a[1]), a[2])
  {
    RunMore(s, a, 3);
    RunMore(s, a, 2);
    RunMore(s, a, 1);
    assert a[..3] == a && a[..0] == [] && Run(s, []) == s;
    hide Step, Run;
  }

  lemma FourSteps(s: Engine, a: seq<Event>)
    requires |a| == 4
    ensures Run(s, a) == Step(Step(Step(Step(s, a[0]), a[1]), a[2]), a[3])
  {
    RunMore(s, a, 4);
    RunMore(s, a, 3);
    RunMore(s, a, 2);
    RunMore(s, a, 1);
    assert a[..4] == a && a[..0] == [] && Run(s, []) == s;
    hide Step, Run;
  }

  // ----- no frame after a reset ---------------------------------------------------------------------

  /** No request, and no producer that could still send: nothing will ever be sent on the stream. */
  ghost predicate Gone(s: Engine, sid: StreamId) {
    sid in s.seen && sid !in s.requests && Silent(s.queue, sid)
  }

  lemma PassOverGone(s: Engine, sid: StreamId, polls: Polls)
    requires Core(s) && s.fault == NoFault && Gone(s, sid)
    ensures var s1 := AfterPass(s, DataFromProducers(s.queue, s.conn, polls));
            Proj(s1.conn.wire, sid) == Proj(s.conn.wire, sid) && Gone(s1, sid)
  {
    var r := DataFromProducers(s.queue, s.conn, polls);
    PassIsShaped(s.handed, s.hurt, s.queue, s.conn, s.log, polls, 0, |s.queue|);
    AppendAllFacts(s.conn, r.frames);
    NotOnStream(r.frames, sid);
    ProjAppend(s.conn.wire, r.frames, sid);
    assert Proj(s.conn.wire, sid) + [] == Proj(s.conn.wire, sid);
  }

  lemma {:induction false} NotOnStream(fs: seq<Frame>, sid: StreamId)
    requires forall f :: f in fs && Carries(f) ==> f.sid != sid
    ensures Proj(fs, sid) == []
  {
    if fs != [] {
      assert fs[|fs| - 1] in fs;
      NotOnStream(fs[..|fs| - 1], sid);
    }
  }

  lemma FlushOverGone(s: Engine, sid: StreamId, polls: Polls)
    requires Core(s) && s.fault == NoFault && Gone(s, sid)
    ensures var s' := Flush(s, polls);
            Proj(s'.conn.wire, sid) == Proj(s.conn.wire, sid) && Gone(s', sid)
  {
    hide Proj, Silent, QueueOk, QuietAfterGoaway, RequestsOk, Flush, AfterPass, DataFromProducers;
    FlushIs(s, polls);
    if !s.closed {
      var s1 := AfterPass(s, DataFromProducers(s.queue, s.conn, polls));
      PassOverGone(s, sid, polls);
      PassCore(s, polls);
      if s1.fault == NoFault && ReadyToShutDown(s1) {
        OtherFrame(s1, Goaway);
      }
    }
  }

  lemma EndedStaysSilent(s: Engine, q: seq<Producer>, sid: StreamId)
    requires Silent(s.queue, sid) && |q| == |s.queue|
    requires forall i :: 0 <= i < |q| ==> q[i] == s.queue[i] || q[i] == s.queue[i].(ended := true)
    ensures Silent(q, sid)
  {
    forall p | p in q && p.sid == sid ensures p.ended {
      var i :| 0 <= i < |q| && q[i] == p;
      assert s.queue[i] in s.queue;
    }
  }

  lemma CloseOverGone(s: Engine, sid: StreamId, last: int, polls: Polls)
    requires s.fault == NoFault && Gone(s, sid) && (s.hasChannel ==> Core(s))
    ensures var s' := Close(s, last, polls);
            Proj(s'.conn.wire, sid) == Proj(s.conn.wire, sid) && Gone(s', sid)
  {
    hide Flush, DataFromProducers, QueueOk, QuietAfterGoaway, Proj;
    if !s.closed && !s.closePending {
      var s0 := s.(closePending := true);
      EndedStaysSilent(s0, DropBeyond(s0, last).queue, sid);
      if s.hasChannel {
        DropBeyondKeeps(s0, last);
        FlushOverGone(DropBeyond(s0, last), sid, polls);
      }
    }
  }

  lemma EnqueueOverGone(s: Engine, sid: StreamId, x: StreamId, m: Message)
    requires Gone(s, sid) && x in s.requests
    ensures Gone(Enqueue(s, x, m), sid) && Enqueue(s, x, m).conn == s.conn && Enqueue(s, x, m).fault == s.fault
  {
    var (dependsOn, weight) := PriorityOf(s, x);
    SortFacts(s.queue + [NewProducer(x, m, dependsOn, weight)]);
  }

  lemma RespondOverGone(s: Engine, sid: StreamId, x: StreamId, m: Message, forceClose: bool, polls: Polls,
                        polls': Polls)
    requires Inv(s) && s.fault == NoFault && Gone(s, sid)
    ensures var s' := Caught(HandleResponse(s, x, m, forceClose, polls, polls'));
            Proj(s'.conn.wire, sid) == Proj(s.conn.wire, sid) && Gone(s', sid)
  {
    hide Flush, Close, Core;
    if x !in s.handed && x in s.requests {
      var s1 := Enqueue(s, x, m);
      EnqueueKeeps(s, x, m);
      EnqueueOverGone(s, sid, x, m);
      FlushOverGone(s1, sid, polls);
      FlushKeeps(s1, polls);
      if Flush(s1, polls).fault == NoFault && forceClose {
        CloseOverGone(Flush(s1, polls), sid, 0, polls');
      }
    }
  }

  lemma StepOverGone(s: Engine, sid: StreamId, e: Event)
    requires Inv(s) && s.fault == NoFault && Gone(s, sid)
    ensures var s' := Step(s, e);
            Proj(s'.conn.wire, sid) == Proj(s.conn.wire, sid) && Gone(s', sid)
  {
    hide Step, Flush, Close, HandleResponse, Caught, Core, Gone, RemoveStream, ResetLocally, QuietStep, Proj;
    StepIs(s, e);
    match e
    case Respond(x, m, forceClose, polls, polls') => RespondOverGone(s, sid, x, m, forceClose, polls, polls');
    case Flushing(polls) => FlushOverGone(s, sid, polls);
    case Closing(last, polls) => CloseOverGone(s, sid, last, polls);
    case PeerReset(x) => PeerResetOverGone(s, sid, x);
    case LocalReset(x, accepted, polls) =>
      ResetOverGone(s, sid, x, accepted);
      LocalResetKeeps(s, x, accepted);
      FlushOverGone(ResetLocally(s, x, accepted), sid, polls);
    case ChannelLost => LosingOverGone(s, sid);
    case H2Output =>
      H2OutputOverGone(s, sid);
      H2OutputIs(s);
    case _ => QuietOverGone(s, sid, e);
  }

  lemma PeerResetOverGone(s: Engine, sid: StreamId, x: StreamId)
    requires Gone(s, sid)
    ensures Gone(RemoveStream(s, x), sid) && RemoveStream(s, x).conn == s.conn && RemoveStream(s, x).fault == s.fault
  {
    EndedStaysSilent(s, EndStream(s.queue, x), sid);
  }

  lemma ResetOverGone(s: Engine, sid: StreamId, x: StreamId, accepted: bool)
    requires Gone(s, sid) && Inv(s) && s.fault == NoFault
    ensures var s' := ResetLocally(s, x, accepted);
            Gone(s', sid) && Proj(s'.conn.wire, sid) == Proj(s.conn.wire, sid) && s'.fault == NoFault
  {
    PeerResetOverGone(s, sid, x);
    if accepted { OtherFrame(s, Reset(x)); }
  }

  lemma LosingOverGone(s: Engine, sid: StreamId)
    requires Gone(s, sid) && s.fault == NoFault
    ensures var s' := Close(s.(hasChannel := false), 0, []);
            Gone(s', sid) && s'.conn == s.conn && s'.fault == NoFault
  {
  }

  lemma H2OutputIs(s: Engine)
    ensures QuietStep(s, H2Output) == s.(conn := s.conn.Append(Control))
  {
  }

  lemma H2OutputOverGone(s: Engine, sid: StreamId)
    requires Gone(s, sid) && Inv(s) && s.fault == NoFault
    ensures var s' := s.(conn := s.conn.Append(Control));
            Gone(s', sid) && Proj(s'.conn.wire, sid) == Proj(s.conn.wire, sid)
  {
    OtherFrame(s, Control);
  }

  lemma QuietOverGone(s: Engine, sid: StreamId, e: Event)
    requires Gone(s, sid) && IsQuiet(e) && !e.H2Output?
    ensures QuietStep(s, e).conn.wire == s.conn.wire && Gone(QuietStep(s, e), sid)
  {
    hide QuietStep, HandleRequest, Terminate, Regrant, Silent, Priorities.Update;
    QuietIs(s, e);
    RegrantKeepsWire(s.conn, e);
    if e.Request? {
      RequestOverGone(s, sid, e.sid);
    } else if e.Terminated? {
      TerminateOverGone(s, sid);
    }
  }

  lemma RequestOverGone(s: Engine, sid: StreamId, x: StreamId)
    requires Gone(s, sid)
    ensures HandleRequest(s, x).conn == s.conn && Gone(HandleRequest(s, x), sid)
  {
    hide Silent;
  }

  lemma TerminateOverGone(s: Engine, sid: StreamId)
    requires Gone(s, sid)
    ensures Terminate(s).conn == s.conn && Gone(Terminate(s), sid)
  {
    hide Silent;
  }

  lemma RegrantKeepsWire(c: Conn, e: Event)
    ensures Regrant(c, e).wire == c.wire
  {
  }

  lemma {:induction false} RunOverGone(s: Engine, sid: StreamId, events: seq<Event>)
    requires Inv(s) && Gone(s, sid)
    ensures var s' := Run(s, events);
            Proj(s'.conn.wire, sid) == Proj(s.conn.wire, sid) && Gone(s', sid)
  {
    if events != [] {
      var front := events[..|events| - 1];
      RunOverGone(s, sid, front);
      RunKeepsFrom(s, front);
      var s', e := Run(s, front), events[|events| - 1];
      StepCatches(s', e);
      StepOverGone(Caught(s'), sid, e);
    }
  }

  /** Once the peer has reset a stream, no HEADERS or DATA frame is sent on it, whatever happens later. */
  lemma NothingAfterReset(before: seq<Event>, sid: StreamId, after: seq<Event>)
    requires sid in Run(INIT, before).seen
    ensures Proj(Run(INIT, before + [PeerReset(sid)] + after).conn.wire, sid) == Proj(Run(INIT, before).conn.wire, sid)
  {
    var s := Run(INIT, before);
    RunKeeps(before);
    RunInTurn(INIT, before + [PeerReset(sid)], after);
    RunInTurn(INIT, before, [PeerReset(sid)]);
    var s1 := Step(s, PeerReset(sid));
    OneStep(s, PeerReset(sid));
    StepKeeps(s, PeerReset(sid));
    forall p | p in s1.queue && p.sid == sid ensures p.ended {
      var i :| 0 <= i < |s1.queue| && s1.queue[i] == p;
      assert s.queue[i] in s.queue;
    }
    assert Gone(s1, sid);
    RunOverGone(s1, sid, after);
  }

  // ----- shutdown ---------------------------------------------------------------------------------------

  /** Sections 5.1 and 6.8 of RFC 7540, in every run: the connection is closed by one GOAWAY, sent when no
      request is open and nothing is queued; of the frames of streams only RST_STREAM can follow it. */
  lemma ShutdownIsGraceful(events: seq<Event>)
    ensures var s := Run(INIT, events);
            && QuietAfterGoaway(s.conn.wire)
            && (Goaway in s.conn.wire ==> s.queue == [] && s.requests == {} && !RequestAcceptable(s))
            && (Goaway in s.conn.wire ==> forall sid :: sid in s.handed && sid !in s.hurt ==>
                 var r := Read(Proj(s.conn.wire, sid)); Settled(s.handed[sid], r, Logged(s.log, sid)))
  {
    RunKeeps(events);
    var s := Run(INIT, events);
    forall sid | sid in s.handed && sid !in s.hurt
      ensures Settled(s.handed[sid], Read(Proj(s.conn.wire, sid)), Logged(s.log, sid))
    {
      assert ClientOk(s.handed, s.hurt, s.conn.wire, s.log, sid);
    }
  }

  /** No request is opened, and none becomes acceptable. */
  ghost predicate AdmitsNothing(s: Engine, s': Engine) {
    s'.requests <= s.requests && (!RequestAcceptable(s) ==> !RequestAcceptable(s'))
  }

  lemma FlushNeverAdmits(s: Engine, polls: Polls)
    requires s.conn.taken <= |s.conn.wire| && s.fault == NoFault
    ensures AdmitsNothing(s, Flush(s, polls))
  {
    FlushIs(s, polls);
    hide Flush, DataFromProducers;
  }

  lemma CloseNeverAdmits(s: Engine, last: int, polls: Polls)
    requires s.conn.taken <= |s.conn.wire| && s.fault == NoFault
    ensures AdmitsNothing(s, Close(s, last, polls)) && !RequestAcceptable(Close(s, last, polls))
  {
    hide Flush;
    if !s.closed && !s.closePending && s.hasChannel {
      FlushNeverAdmits(DropBeyond(s.(closePending := true), last), polls);
    }
  }

  lemma RespondNeverAdmits(s: Engine, sid: StreamId, m: Message, forceClose: bool, polls: Polls, polls': Polls)
    requires Inv(s) && s.fault == NoFault
    ensures AdmitsNothing(s, Caught(HandleResponse(s, sid, m, forceClose, polls, polls')))
  {
    hide Flush, Close, Core;
    if sid !in s.handed && sid in s.requests {
      var s0 := Enqueue(s, sid, m);
      EnqueueKeeps(s, sid, m);
      CoreTaken(s0);
      FlushNeverAdmits(s0, polls);
      FlushKeeps(s0, polls);
      CoreTaken(Flush(s0, polls));
      if Flush(s0, polls).fault == NoFault && forceClose {
        CloseNeverAdmits(Flush(s0, polls), 0, polls');
      }
    }
  }

  lemma CoreTaken(s: Engine)
    requires Core(s)
    ensures s.conn.taken <= |s.conn.wire|
  {
  }

  lemma LocalResetNeverAdmits(s: Engine, sid: StreamId, accepted: bool, polls: Polls)
    requires Inv(s) && s.fault == NoFault
    ensures AdmitsNothing(s, Flush(ResetLocally(s, sid, accepted), polls))
  {
    hide Flush, Core;
    LocalResetKeeps(s, sid, accepted);
    CoreTaken(ResetLocally(s, sid, accepted));
    FlushNeverAdmits(ResetLocally(s, sid, accepted), polls);
  }

  /** After `close`, a termination, or the loss or abort of the channel no stream is admitted. */
  lemma ClosingStopsAdmitting(s: Engine, e: Event)
    requires Inv(s) && s.fault == NoFault && (e.Closing? || e.Terminated? || e.ChannelLost? || e.ChannelAborted?)
    ensures AdmitsNothing(s, Step(s, e)) && !RequestAcceptable(Step(s, e))
  {
    CoreTaken(s);
    hide Close, Core;
    if e.Closing? {
      CloseNeverAdmits(s, e.last, e.polls);
    } else if e.ChannelLost? {
      CloseNeverAdmits(s.(hasChannel := false), 0, []);
    }
  }

  lemma StepNeverAdmits(s: Engine, e: Event)
    requires Inv(s) && s.fault == NoFault && !RequestAcceptable(s)
    ensures AdmitsNothing(s, Step(s, e))
  {
    CoreTaken(s);
    StepIs(s, e);
    hide Step, Core, Flush, Close, HandleResponse, Caught, ResetLocally, RemoveStream, QuietStep, AdmitsNothing;
    if e.Closing? || e.Terminated? || e.ChannelLost? {
      ClosingStopsAdmitting(s, e);
    } else if e.Respond? {
      RespondNeverAdmits(s, e.sid, e.m, e.forceClose, e.polls, e.polls');
    } else if e.Flushing? {
      FlushNeverAdmits(s, e.polls);
    } else if e.LocalReset? {
      LocalResetNeverAdmits(s, e.sid, e.accepted, e.polls);
    } else if e.PeerReset? {
      PeerResetNeverAdmits(s, e.sid);
    } else {
      QuietNeverAdmits(s, e);
    }
  }

  lemma PeerResetNeverAdmits(s: Engine, sid: StreamId)
    ensures AdmitsNothing(s, RemoveStream(s, sid))
  {
  }

  lemma QuietNeverAdmits(s: Engine, e: Event)
    requires IsQuiet(e) && !RequestAcceptable(s)
    ensures AdmitsNothing(s, QuietStep(s, e))
  {
    hide QuietStep, HandleRequest, Terminate, Regrant, Conn.Append, Priorities.Update;
    QuietIs(s, e);
    if e.Request? {
      RefusesRequest(s, e.sid);
    } else if e.Terminated? {
      TerminateNeverAdmits(s);
    }
  }

  lemma RefusesRequest(s: Engine, sid: StreamId)
    requires !RequestAcceptable(s)
    ensures AdmitsNothing(s, HandleRequest(s, sid))
  {
  }

  lemma TerminateNeverAdmits(s: Engine)
    ensures AdmitsNothing(s, Terminate(s))
  {
  }

  /** And none is admitted in any continuation of the run. */
  lemma {:induction false} ClosingIsForGood(s: Engine, events: seq<Event>)
    requires Inv(s) && !RequestAcceptable(s)
    ensures !RequestAcceptable(Run(s, events)) && Run(s, events).requests <= s.requests
  {
    if events != [] {
      var front := events[..|events| - 1];
      ClosingIsForGood(s, front);
      RunKeepsFrom(s, front);
      hide Inv;
      var s', e := Run(s, front), events[|events| - 1];
      StepCatches(s', e);
      StepNeverAdmits(Caught(s'), e);
    }
  }

  /** The requests that are open after something was flushed: those that were, less the logged ones.
      A stream that has lost its end is taken off without being logged. */
  ghost predicate ClosesLogged(s: Engine, requests: set<StreamId>, log: Log) {
    && requests <= s.requests
    && forall sid :: sid in s.requests && sid !in s.hurt ==> (sid in requests <==> Logged(log, sid) == [])
  }

  lemma PassClosesLogged(s: Engine, r: Pass)
    requires Core(s) && PassShape(s.queue, r)
    ensures r.fault == NoFault ==> ClosesLogged(s, AfterPass(s, r).requests, s.log + r.log)
  {
    hide QueueOk, ShutdownOk, ChannelOk, Logged;
    forall sid | sid in s.requests && sid !in s.hurt
      ensures Logged(s.log + r.log, sid) == Logged(r.log, sid)
      ensures sid in r.finished <==> Logged(r.log, sid) != []
    {
      LoggedAppend(s.log, r.log, sid);
      OpenIsUnlogged(s, sid);
      if sid in Ids(s.queue) { OpenIsNotSilent(s, sid); }
    }
  }

  lemma OpenIsNotSilent(s: Engine, sid: StreamId)
    requires RequestsOk(s) && sid in s.requests && sid in Ids(s.queue) && sid !in s.hurt
    ensures !Silent(s.queue, sid)
  {
    var p :| p in s.queue && p.sid == sid;
    assert !p.ended;
  }

  /** An open request was never logged; one that a flush finishes was logged by it. */
  lemma FlushClosesLogged(s: Engine, polls: Polls)
    requires Core(s) && s.fault == NoFault && !s.closed
    ensures var s' := Flush(s, polls);
            s'.fault == NoFault ==> ClosesLogged(s, s'.requests, s'.log)
  {
    var r := DataFromProducers(s.queue, s.conn, polls);
    FlushIs(s, polls);
    PassIsShaped(s.handed, s.hurt, s.queue, s.conn, s.log, polls, 0, |s.queue|);
    PassClosesLogged(s, r);
    hide DataFromProducers, Flush, Logged, Core, ClosesLogged;
  }

  lemma OpenIsUnlogged(s: Engine, sid: StreamId)
    requires Core(s) && sid in s.requests && sid !in s.hurt
    ensures Logged(s.log, sid) == []
  {
    assert ClientOk(s.handed, s.hurt, s.conn.wire, s.log, sid);
    if sid in s.handed {
      var p :| p in s.queue && p.sid == sid;
      assert Queued(s.handed, s.hurt, p, s.conn.wire, s.log);
    }
  }

  /** A flush that raises on an open channel takes no request off. */
  lemma RaisingKeepsRequests(s: Engine, polls: Polls)
    requires Core(s) && s.fault == NoFault && s.hasChannel
    ensures Flush(s, polls).fault != NoFault ==> Flush(s, polls).requests == s.requests
  {
    FlushIs(s, polls);
    hide Flush, DataFromProducers, QueueOk, QuietAfterGoaway;
  }

  /** `close (last_stream_id)`: the requests left are the open ones up to that id, less those whose
      response the flush of `close` completes, unless that flush raises; no later stream gets another
      HEADERS or DATA frame. With 0 nothing is dropped: the source cannot tell 0 from a missing id. */
  lemma CloseDropsExactly(s: Engine, last: int, polls: Polls)
    requires Inv(s) && s.fault == NoFault && RequestAcceptable(s)
    ensures var s' := Close(s, last, polls);
            && (s'.fault == NoFault ==> ClosesLogged(s.(requests := Below(s.requests, last)), s'.requests, s'.log))
            && (s'.fault != NoFault ==> s'.requests == Below(s.requests, last))
            && (last != 0 ==> forall sid :: sid in s.seen && sid > last ==>
                  Proj(s'.conn.wire, sid) == Proj(s.conn.wire, sid) && Gone(s', sid))
  {
    var s0 := s.(closePending := true);
    var s1 := DropBeyond(s0, last);
    DropBeyondKeeps(s0, last);
    FlushClosesLogged(s1, polls);
    RaisingKeepsRequests(s1, polls);
    assert s1.requests == Below(s.requests, last) && Close(s, last, polls) == Flush(s1, polls);
    hide Flush, Close, Logged, Core;
    if last != 0 {
      forall sid | sid in s.seen && sid > last
        ensures var s' := Close(s, last, polls);
                Proj(s'.conn.wire, sid) == Proj(s.conn.wire, sid) && Gone(s', sid)
      {
        BeyondIsSilent(s.queue, last, sid);
        FlushOverGone(s1, sid, polls);
      }
    }
  }

  /** The ids up to `last`, where 0 stands for no limit. */
  ghost function Below(requests: set<StreamId>, last: int): set<StreamId> {
    if last == 0 then requests else set sid | sid in requests && sid <= last
  }

  lemma BeyondIsSilent(q: seq<Producer>, last: int, sid: StreamId)
    requires sid > last
    ensures Silent(EndBeyond(q, last), sid)
  {
  }

  // ----- the queue after handle_response -------------------------------------------------------------------

  /** By parent, and under one parent the heavier stream first, and the older one of equal weight. */
  ghost predicate HeavierFirst(q: seq<Producer>) {
    forall i, j :: 0 <= i < j < |q| ==>
      && q[i].dependsOn <= q[j].dependsOn
      && (q[i].dependsOn == q[j].dependsOn ==> q[i].priority >= q[j].priority)
      && (q[i].dependsOn == q[j].dependsOn && q[i].priority == q[j].priority ==> q[i].sid < q[j].sid)
  }

  /** The queue handed to the scheduler is the old one with the new producer, sorted; being strict,
      the order leaves no choice. No stream is ever queued twice. */
  lemma EnqueueSorts(s: Engine, sid: StreamId, m: Message)
    requires Inv(s) && s.fault == NoFault && sid in s.requests && sid !in s.handed
    ensures var q, p := Enqueue(s, sid, m).queue, NewProducer(sid, m, PriorityOf(s, sid).0, PriorityOf(s, sid).1);
            && HeavierFirst(q) && Distinct(q) && multiset(q) == multiset(s.queue) + multiset{p}
            && forall q' :: HeavierFirst(q') && multiset(q') == multiset(q) ==> q' == q
  {
    var (dependsOn, weight) := PriorityOf(s, sid);
    var all := s.queue + [NewProducer(sid, m, dependsOn, weight)];
    EnqueueKeeps(s, sid, m);
    forall x | x in s.queue ensures x.sid != sid {
      assert Queued(s.handed, s.hurt, x, s.conn.wire, s.log);
    }
    assert Distinct(all);
    SortFacts(all);
    HeavierIsSorted(Sort(all));
    forall q' | HeavierFirst(q') && multiset(q') == multiset(Sort(all)) ensures q' == Sort(all) {
      HeavierIsSorted(q');
      SortIsUnique(q', Sort(all));
    }
  }

  lemma HeavierIsSorted(q: seq<Producer>)
    ensures HeavierFirst(q) <==> Sorted(q)
  {
    forall i, j | 0 <= i < j < |q|
      ensures Less(q[i], q[j]) <==>
              && q[i].dependsOn <= q[j].dependsOn
              && (q[i].dependsOn == q[j].dependsOn ==> q[i].priority >= q[j].priority)
              && (q[i].dependsOn == q[j].dependsOn && q[i].priority == q[j].priority ==> q[i].sid < q[j].sid)
    {
      LessIsStrictTotalOrder(q[i], q[j], q[i]);
    }
    hide Less;
  }

  // ----- exceptions ---------------------------------------------------------------------------------------------

  /** The visit that decides the pass of a flush, if there is one. */
  function Deciding(s: Engine, polls: Polls): Option<Visit> {
    var vs := Visits(s.queue, [], 0, |s.queue|);
    var k := FirstMover(vs, s.conn, polls);
    if k < |vs| then Some(vs[k]) else None
  }

  predicate FlushIsRefused(s: Engine, polls: Polls) {
    var v := Deciding(s, polls);
    v.Some? && Refused(v.value, s.conn, polls)
  }

  /** Exactly when a flush raises. The IndexError: the connection is open and all that is queued has
      been ended. The FlowControlError: the connection is open and the first that is asked and moves has
      octets, or its end, to send on a negative window. The push on a lost channel: the connection is
      open, the channel is not, nothing else is raised, and there were frames to push or somebody moves.
      The first two leave `hasSendables` as it was. */
  lemma FlushRaisesIff(s: Engine, polls: Polls)
    requires Inv(s) && s.fault == NoFault
    ensures var f, popped := Flush(s, polls).fault, s.queue != [] && AllEnded(s.queue);
            && (f == EmptyPop <==> !s.closed && popped)
            && (f.WindowRefused? <==> !s.closed && FlushIsRefused(s, polls))
            && (f == NoChannel <==>
                  && !s.closed && !s.hasChannel && !popped && !FlushIsRefused(s, polls)
                  && (s.conn.Pending() != [] || Deciding(s, polls).Some?))
            && (Flush(s, polls).stale <==> f == EmptyPop || f.WindowRefused?)
  {
    QueueWaits(s);
    CoreTaken(s);
    hide QueueOk, QuietAfterGoaway, RunPass, Waiting, Flush, DataFromProducers, FlushIsRefused, Deciding;
    PassOf(s, polls);
    FlushFaults(s, polls);
  }

  /** What a flush makes of the exceptions and frames of its pass. */
  lemma FlushFaults(s: Engine, polls: Polls)
    requires s.fault == NoFault && s.conn.taken <= |s.conn.wire|
    ensures var s', r := Flush(s, polls), DataFromProducers(s.queue, s.conn, polls);
            if s.closed then s'.fault == NoFault && !s'.stale
            else if r.fault != NoFault then s'.fault == r.fault && s'.stale
            else
              && !s'.stale
              && s'.fault == if !s.hasChannel && (s.conn.Pending() != [] || r.frames != []) then NoChannel else NoFault
  {
    FlushIs(s, polls);
    PassPending(s.conn, DataFromProducers(s.queue, s.conn, polls).frames);
    hide Flush, DataFromProducers;
  }

  /** The pass of a flush, as far as it matters for exceptions. */
  lemma PassOf(s: Engine, polls: Polls)
    requires forall p :: p in s.queue ==> p.ended || Waiting(p)
    ensures var r := DataFromProducers(s.queue, s.conn, polls);
            && (r.fault == EmptyPop <==> s.queue != [] && AllEnded(s.queue))
            && (r.fault.WindowRefused? <==> FlushIsRefused(s, polls))
            && r.fault != NoChannel
            && (r.fault == NoFault ==> (r.frames != [] <==> Deciding(s, polls).Some?))
            && (r.fault == NoFault && r.frames == [] && s.queue != [] ==> r.queue != [])
  {
    var vs := Visits(s.queue, [], 0, |s.queue|);
    EmptyPopIff(s.queue, s.conn, polls);
    PassFaults(s.queue, s.conn, polls, 0, |s.queue|);
    PassIsDecided(s.queue, s.conn, polls);
    UnmovedSends(s.queue, [], 0, |s.queue|);
    VisitsAreQueued(s.queue, [], 0, |s.queue|);
    var v := Deciding(s, polls);
    if v.Some? {
      assert v.value in vs;
      ActsIffMoves(v.value, s.conn, polls);
    }
    hide Visits, Unmoved, Turn, DataFromProducers, Moves, Refused;
  }

  lemma QueueWaits(s: Engine)
    requires Core(s)
    ensures forall p :: p in s.queue ==> p.ended || Waiting(p)
  {
    forall p | p in s.queue ensures p.ended || Waiting(p) {
      assert Queued(s.handed, s.hurt, p, s.conn.wire, s.log);
    }
  }

  lemma PassPending(c: Conn, frames: seq<Frame>)
    requires c.taken <= |c.wire|
    ensures c.AppendAll(frames).Pending() == c.Pending() + frames
  {
    AppendAllFacts(c, frames);
    assert (c.wire + frames)[c.taken..] == c.wire[c.taken..] + frames;
  }

  lemma NothingQueued(s: Engine)
    requires s.queue == []
    ensures DataFromProducers(s.queue, s.conn, []) == Pass([], [], [], [], NoFault)
  {
  }

  lemma AfterIdlePass(s: Engine, q: seq<Producer>)
    ensures AfterPass(s, Pass(q, [], [], [], NoFault)) == s.(queue := q, fault := NoFault)
  {
    var s1 := AfterPass(s, Pass(q, [], [], [], NoFault));
    assert s.conn.AppendAll([]) == s.conn && s.log + [] == s.log;
    assert s1.requests == s.requests;
  }
}
