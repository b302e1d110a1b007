/** The handler object: the methods of `http2_connection_handler`, each proved to take its step of
    the state machine in Http2Handler. A method that raised leaves `fault` behind, and its callers
    return at once, as an exception would make them. */
module Http2ConnectionHandler {
  import opened Octets
  import opened Http2Stream
  import opened H2Connection
  import opened Http2Producer
  import opened ProducerQueue
  import Priorities
  import H = Http2Handler
  import opened Wrappers

  /** Put what earlier iterations did in front of a pass. */
  function After(frames: seq<Frame>, log: Log, finished: seq<StreamId>, r: Pass): Pass {
    r.(frames := frames + r.frames, log := log + r.log, finished := finished + r.finished)
  }

  /** One more iteration of the loop, in front of what is left of the pass. */
  lemma OneIteration(frames: seq<Frame>, log: Log, finished: seq<StreamId>,
                     q: seq<Producer>, c: Conn, polls: Polls, i: nat, n: nat)
    requires i < n && q != []
    ensures var s := Turn(q[0], c.Window(q[0].sid), At(polls, i));
            var frames', log' := frames + s.frames, log + LogOf(s);
            var finished' := finished + (if s.p.ended then [s.p.sid] else []);
            After(frames, log, finished, RunPass(q, c, polls, i, n)) ==
              if s.refused then Pass([s.p] + q[1..], frames', log', finished, WindowRefused(LostBy(q[0], s)))
              else if s.produced then Pass(AfterTurn(q, s), frames', log', finished', NoFault)
              else if AfterTurn(q, s) == [] then Pass([], frames', log', finished', EmptyPop)
              else After(frames', log', finished',
                         RunPass(Rotate(AfterTurn(q, s)), c.AppendAll(s.frames), polls, i + 1, n))
  {
    var s := Turn(q[0], c.Window(q[0].sid), At(polls, i));
    hide Turn;
    assert RunPass(q, c, polls, i, n) == Continue(q, c, s, polls, i, n);
    if !s.refused && !s.produced && AfterTurn(q, s) != [] {
      var rest := RunPass(Rotate(AfterTurn(q, s)), c.AppendAll(s.frames), polls, i + 1, n);
      Associative(frames, s.frames, rest.frames);
      Associative(log, LogOf(s), rest.log);
      Associative(finished, if s.p.ended then [s.p.sid] else [], rest.finished);
    }
    assert finished + [] == finished;
  }

  lemma WholePass(q: seq<Producer>, c: Conn, polls: Polls)
    ensures ProducerQueue.DataFromProducers(q, c, polls) == After([], [], [], RunPass(q, c, polls, 0, |q|))
  {
    var r := RunPass(q, c, polls, 0, |q|);
    assert [] + r.frames == r.frames && [] + r.log == r.log && [] + r.finished == r.finished;
  }

  lemma EndOfPass(frames: seq<Frame>, log: Log, finished: seq<StreamId>, q: seq<Producer>, c: Conn, polls: Polls,
                  n: nat)
    ensures After(frames, log, finished, RunPass(q, c, polls, n, n)) == Pass(q, frames, log, finished, NoFault)
  {
    assert frames + [] == frames && log + [] == log && finished + [] == finished;
  }

  ghost function Views(ps: seq<Http2Producer>): (q: seq<Producer>)
    reads ps
    ensures |q| == |ps| && forall i :: 0 <= i < |q| ==> q[i] == ps[i].View()
  {
    seq(|ps|, i requires 0 <= i < |ps| reads ps => ps[i].View())
  }

  // ----- list.sort on the objects, by their own `<` ---------------------------------------------

  function InsertObject(p: Http2Producer, ps: seq<Http2Producer>): seq<Http2Producer> {
    if ps == [] || Before(p.dependsOn, p.priority, p.sid, ps[0].dependsOn, ps[0].priority, ps[0].sid) then [p] + ps
    else [ps[0]] + InsertObject(p, ps[1..])
  }

  function SortObjects(ps: seq<Http2Producer>): seq<Http2Producer> {
    if ps == [] then [] else InsertObject(ps[0], SortObjects(ps[1..]))
  }

  lemma ViewsCons(p: Http2Producer, ps: seq<Http2Producer>)
    ensures Views([p] + ps) == [p.View()] + Views(ps)
  {
  }

  lemma {:induction false} InsertViews(p: Http2Producer, ps: seq<Http2Producer>)
    ensures Views(InsertObject(p, ps)) == Insert(p.View(), Views(ps))
  {
    if ps == [] || Before(p.dependsOn, p.priority, p.sid, ps[0].dependsOn, ps[0].priority, ps[0].sid) {
      ViewsCons(p, ps);
    } else {
      InsertViews(p, ps[1..]);
      assert ps == [ps[0]] + ps[1..];
      ViewsCons(ps[0], ps[1..]);
      ViewsCons(ps[0], InsertObject(p, ps[1..]));
      assert Views(ps)[1..] == Views(ps[1..]);
    }
  }

  lemma {:induction false} InsertKeeps(p: Http2Producer, ps: seq<Http2Producer>)
    ensures multiset(InsertObject(p, ps)) == multiset{p} + multiset(ps)
  {
    if ps != [] {
      InsertKeeps(p, ps[1..]);
      assert ps == [ps[0]] + ps[1..];
    }
  }

  lemma {:induction false} SortViews(ps: seq<Http2Producer>)
    ensures Views(SortObjects(ps)) == Sort(Views(ps))
    ensures multiset(SortObjects(ps)) == multiset(ps)
  {
    if ps != [] {
      SortViews(ps[1..]);
      InsertViews(ps[0], SortObjects(ps[1..]));
      InsertKeeps(ps[0], SortObjects(ps[1..]));
      assert ps == [ps[0]] + ps[1..];
      assert Views(ps)[1..] == Views(ps[1..]);
    }
  }

  /** A permutation of distinct objects has distinct objects. */
  lemma DistinctObjects(a: seq<Http2Producer>, b: seq<Http2Producer>)
    requires multiset(a) == multiset(b) && forall i, j :: 0 <= i < j < |a| ==> a[i] != a[j]
    ensures forall i, j :: 0 <= i < j < |b| ==> b[i] != b[j]
    ensures forall p :: p in b <==> p in a
  {
    forall p ensures p in b <==> p in a {
      assert p in multiset(a) <==> p in multiset(b);
    }
    forall i, j | 0 <= i < j < |b| ensures b[i] != b[j] {
      RepeatedOccursTwice(b, i, j);
      OccursOnce(a, b[i]);
    }
  }

  lemma RepeatedOccursTwice(b: seq<Http2Producer>, i: nat, j: nat)
    requires i < j < |b|
    ensures b[i] == b[j] ==> multiset(b)[b[i]] >= 2
  {
    assert b == b[..i] + [b[i]] + b[i + 1..j] + [b[j]] + b[j + 1..];
  }

  lemma {:induction false} OccursOnce(a: seq<Http2Producer>, p: Http2Producer)
    requires forall i, j :: 0 <= i < j < |a| ==> a[i] != a[j]
    ensures multiset(a)[p] <= 1
  {
    if a != [] {
      OccursOnce(a[1..], p);
      assert a == [a[0]] + a[1..];
      if p == a[0] {
        assert p !in a[1..];
      }
    }
  }

  class Handler {
    const conn: Connection
    const log: AccessLog
    var producers: seq<Http2Producer>
    var requests: set<StreamId>
    var priorities: Priorities.Table
    var closePending: bool
    var closed: bool
    var shutdowned: bool
    var hasSendables: bool
    var hasChannel: bool
    var pushed: seq<Frame>
    var handed: Messages
    var seen: set<StreamId>
    ghost var hurt: set<StreamId>
    ghost var stale: bool
    var closing: bool
    var fault: Fault

    /** The queued objects are distinct, and share the connection and the log of the handler. */
    ghost predicate Valid()
      reads `producers, producers, conn
    {
      && (forall i, j :: 0 <= i < j < |producers| ==> producers[i] != producers[j])
      && (forall p :: p in producers ==> p.conn == conn && p.log == log)
      && conn.taken <= |conn.wire|
    }

    ghost function Queue(): (q: seq<Producer>)
      reads `producers, producers
      ensures |q| == |producers| && forall i :: 0 <= i < |q| ==> q[i] == producers[i].View()
    {
      Views(producers)
    }

    ghost function View(): H.Engine
      reads this, producers, conn, log
    {
      H.Engine(conn.View(), Queue(), log.entries, requests, priorities, closePending, closed, shutdowned,
               hasSendables, hasChannel, pushed, handed, seen, hurt, stale, closing, fault)
    }

    constructor ()
      ensures Valid() && View() == H.INIT && fresh(conn) && fresh(log)
    {
      conn := new Connection();
      log := new AccessLog();
      producers, requests, priorities, pushed, handed, seen := [], {}, [], [], map[], {};
      closePending, closed, shutdowned, hasSendables, hasChannel, fault := false, false, false, false, true, NoFault;
      hurt, stale, closing := {}, false, false;
    }

    // ----- the scheduling loop ----------------------------------------------------------------

    /** `produce` of the head of the queue, and its removal when it has ended. */
    method TurnHead(r: Readiness) returns (produced: bool, ended: bool, refused: bool)
      requires Valid() && producers != []
      modifies `producers, producers[0], conn, log
      ensures Valid() && (forall p :: p in producers ==> p in old(producers))
      ensures var s := Turn(old(Queue())[0], old(conn.View()).Window(old(producers)[0].sid), r);
              && produced == s.produced && refused == s.refused && ended == s.p.ended
              && s.p.sid == old(producers)[0].sid
              && old(producers)[0].View() == s.p
              && Queue() == (if refused then [s.p] + old(Queue())[1..] else AfterTurn(old(Queue()), s))
              && conn.View() == old(conn.View()).AppendAll(s.frames)
              && log.entries == old(log.entries) + LogOf(s)
    {
      var producer := producers[0];
      ghost var s := Turn(Queue()[0], conn.View().Window(producer.sid), r);
      AppendAllFacts(conn.View(), s.frames);
      produced, refused := producer.Produce(r);
      hide Turn;
      ended := producer.ended;
      assert Queue() == [s.p] + old(Queue())[1..];
      if ended && !refused {
        PopHead();
      }
    }

    method PopHead()
      requires Valid() && producers != []
      modifies `producers
      ensures Valid() && Queue() == old(Queue())[1..] && producers == old(producers)[1..]
    {
      producers := producers[1..];
      assert Queue() == old(Queue())[1..];
    }

    /** One iteration of the loop: `stop` is its `break`, or an exception. */
    method Iterate(r: Readiness) returns (stop: bool, finished: seq<StreamId>)
      requires Valid() && producers != [] && fault == NoFault
      modifies `producers, `fault, producers[0], conn, log
      ensures Valid() && (forall p :: p in producers ==> p in old(producers))
      ensures var q := old(Queue());
              var s := Turn(q[0], old(conn.View()).Window(q[0].sid), r);
              && conn.View() == old(conn.View()).AppendAll(s.frames)
              && log.entries == old(log.entries) + LogOf(s)
              && finished == (if s.p.ended && !s.refused then [s.p.sid] else [])
              && if s.refused then stop && fault == WindowRefused(LostBy(q[0], s)) && Queue() == [s.p] + q[1..]
                 else if s.produced then stop && fault == NoFault && Queue() == AfterTurn(q, s)
                 else if AfterTurn(q, s) == [] then stop && fault == EmptyPop && Queue() == []
                 else !stop && fault == NoFault && Queue() == Rotate(AfterTurn(q, s))
    {
      hide Turn;
      var producer, sid, sent := producers[0], producers[0].sid, producers[0].sent;
      finished := [];
      ghost var s := Turn(Queue()[0], conn.View().Window(Queue()[0].sid), r);
      var produced, ended, refused := TurnHead(r);
      if refused {
        var lost := if ended || producer.sent != sent then {sid} else {};
        assert lost == LostBy(old(Queue())[0], s);
        hide LostBy, LogOf, AfterTurn;
        fault := WindowRefused(lost);
        return true, [];
      }
      hide LostBy, LogOf, AfterTurn;
      if ended {
        finished := [sid];
      }
      if produced {
        return true, finished;
      }
      stop := RotateQueue();
    }

    /** The head of the queue goes to its end, unless it is alone; `raised` is the IndexError of a
        queue without a head. */
    method RotateQueue() returns (raised: bool)
      requires Valid() && fault == NoFault
      modifies `producers, `fault
      ensures Valid() && forall p :: p in producers <==> p in old(producers)
      ensures raised == (old(Queue()) == []) && fault == (if raised then EmptyPop else NoFault)
      ensures Queue() == if raised then [] else Rotate(old(Queue()))
    {
      raised := false;
      if |producers| != 1 {
        if producers == [] {
          fault := EmptyPop;
          return true;
        }
        producers := producers[1..] + [producers[0]];
      }
    }

    method DataFromProducers(polls: Polls) returns (finished: seq<StreamId>)
      requires Valid() && fault == NoFault
      modifies `producers, `fault, producers, conn, log
      ensures Valid() && forall p :: p in producers ==> p in old(producers)
      ensures var r := ProducerQueue.DataFromProducers(old(Queue()), old(conn.View()), polls);
              && Queue() == r.queue && conn.View() == old(conn.View()).AppendAll(r.frames)
              && log.entries == old(log.entries) + r.log && fault == r.fault
              && (fault == NoFault ==> finished == r.finished)
    {
      hide RunPass, Turn, ProducerQueue.DataFromProducers;
      var i, n := 0, |producers|;
      ghost var q, c, frames, entries := Queue(), conn.View(), [], [];
      finished := [];
      assert old(log.entries) + [] == log.entries && c.AppendAll([]) == c;
      WholePass(q, c, polls);
      ghost var all := ProducerQueue.DataFromProducers(q, c, polls);
      while i < n
        invariant 0 <= i <= n && Valid() && fault == NoFault
        invariant forall p :: p in producers ==> p in old(producers)
        invariant i < n ==> producers != []
        invariant conn.View() == c.AppendAll(frames) && log.entries == old(log.entries) + entries
        invariant all == After(frames, entries, finished, RunPass(Queue(), conn.View(), polls, i, n))
      {
        ghost var q0, c0 := Queue(), conn.View();
        assert producers[0] in producers;
        ghost var s := Turn(q0[0], c0.Window(q0[0].sid), At(polls, i));
        OneIteration(frames, entries, finished, q0, c0, polls, i, n);
        var stop, last := Iterate(At(polls, i));
        AppendInTurn(c, frames, s.frames);
        Associative(old(log.entries), entries, LogOf(s));
        frames, entries, finished := frames + s.frames, entries + LogOf(s), finished + last;
        if stop {
          return;
        }
        i := i + 1;
      }
      EndOfPass(frames, entries, finished, Queue(), conn.View(), polls, n);
    }

    // ----- flushing and shutting down ------------------------------------------------------------

    /** A pass, with its mark on the streams it has hurt. */
    method Pass(polls: Polls) returns (finished: seq<StreamId>)
      requires Valid() && fault == NoFault
      modifies `producers, `fault, `hurt, producers, conn, log
      ensures Valid() && (forall p :: p in producers ==> p in old(producers))
      ensures var s := old(View());
              var r := ProducerQueue.DataFromProducers(s.queue, s.conn, polls);
              && View() == s.(queue := r.queue, conn := s.conn.AppendAll(r.frames), log := s.log + r.log,
                              fault := r.fault, hurt := Hurt(s.hurt, r.fault))
              && fault == r.fault && (fault == NoFault ==> finished == r.finished)
    {
      hide ProducerQueue.DataFromProducers;
      finished := DataFromProducers(polls);
      hurt := Hurt(hurt, fault);
    }

    /** A pass, and the removal of the requests it finished. */
    method RunProducers(polls: Polls)
      requires Valid() && fault == NoFault
      modifies `producers, `fault, `requests, `hurt, producers, conn, log
      ensures Valid() && (forall p :: p in producers ==> p in old(producers))
      ensures View() == H.AfterPass(old(View()), ProducerQueue.DataFromProducers(old(Queue()), old(conn.View()), polls))
    {
      hide ProducerQueue.DataFromProducers;
      var finished := Pass(polls);
      if fault == NoFault {
        RemoveRequests(finished);
      }
    }

    /** The exception of a pass leaves `data_to_send` before the finished requests are removed. */
    method DataToSend(polls: Polls) returns (data: seq<Frame>)
      requires Valid() && fault == NoFault
      modifies this, producers, conn, log
      ensures Valid() && (forall p :: p in producers ==> p in old(producers))
      ensures (View(), data) == H.DataToSend(old(View()), polls)
      decreases if shutdowned then 0 else 1, 2
    {
      hide H.DataExhausted, ProducerQueue.DataFromProducers;
      data := [];
      if closed {
        return;
      }
      RunProducers(polls);
      if fault != NoFault {
        return;
      }
      hide H.AfterPass;
      data := TakeOutput();
      assert forall i :: 0 <= i < |producers| ==> producers[i] in producers && producers[i] in old(producers);
      if data == [] {
        DataExhausted();
      }
    }

    /** What h2 has waiting; h2 takes it as handed over. */
    method TakeOutput() returns (data: seq<Frame>)
      requires Valid()
      modifies conn
      ensures Valid() && data == old(conn.View()).Pending()
      ensures View() == old(View()).(conn := old(conn.View()).(taken := |old(conn.View()).wire|))
    {
      data := conn.DataToSend();
    }

    method RemoveRequests(finished: seq<StreamId>)
      modifies `requests
      ensures View() == old(View()).(requests := old(requests) - (set sid | sid in finished))
    {
      for i := 0 to |finished|
        invariant requests == old(requests) - (set sid | sid in finished[..i])
      {
        requests := requests - {finished[i]};
        assert finished[..i + 1] == finished[..i] + [finished[i]];
      }
      assert finished[..|finished|] == finished;
    }

    method DataExhausted()
      requires Valid() && fault == NoFault
      modifies this, producers, conn, log
      ensures Valid() && forall p :: p in producers ==> p in old(producers)
      ensures View() == H.DataExhausted(old(View()))
      decreases if shutdowned then 0 else 1, 1
    {
      var pending := producers == [] && closePending;
      assert producers == [] <==> Queue() == [];
      hide H.ProceedShutdown;
      if hasChannel && !shutdowned && pending && requests == {} {
        ProceedShutdown();
      }
    }

    method ProceedShutdown()
      requires Valid() && fault == NoFault && !shutdowned
      modifies this, producers, conn, log
      ensures Valid() && forall p :: p in producers ==> p in old(producers)
      ensures View() == H.ProceedShutdown(old(View()))
      decreases 1, 0
    {
      hide H.Flush;
      ghost var s := View();
      conn.SendFrame(Goaway);
      shutdowned := true;
      assert View() == s.(conn := s.conn.Append(Goaway), shutdowned := true);
      Flush([]);
    }

    method Flush(polls: Polls)
      requires Valid() && fault == NoFault
      modifies this, producers, conn, log
      ensures Valid() && forall p :: p in producers ==> p in old(producers)
      ensures View() == H.Flush(old(View()), polls)
      decreases if shutdowned then 0 else 1, 3
    {
      hide H.DataToSend;
      var data := DataToSend(polls);
      if fault != NoFault {
        Stay();
        return;
      }
      NoteSendables();
      if data != [] {
        if hasChannel {
          Push(data);
        } else {
          Raise(NoChannel);
        }
      }
    }

    method Raise(f: Fault)
      modifies `fault
      ensures View() == old(View()).(fault := f)
    {
      hide Queue, Connection.View;
      fault := f;
    }

    /** An exception before `_has_sendables` is set leaves it as it is. */
    ghost method Stay()
      modifies `stale
      ensures View() == old(View()).(stale := true)
    {
      hide Queue, Connection.View;
      stale := true;
    }

    method NoteSendables()
      modifies `hasSendables, `stale
      ensures View() == H.Refresh(old(View()))
    {
      assert (producers != []) == (Queue() != []);
      hide Queue, Connection.View;
      hasSendables, stale := producers != [], false;
    }

    method Push(data: seq<Frame>)
      requires hasChannel
      modifies `pushed
      ensures View() == old(View()).(pushed := old(pushed) + data)
    {
      hide Queue, Connection.View;
      pushed := pushed + data;
    }

    /** `_terminate_connection`: the channel is closed when all is written, and the connection is closed. */
    method TerminateConnection()
      modifies `closing, `closePending, `closed
      ensures View() == H.TerminateConnection(old(View()))
    {
      hide Queue, Connection.View;
      if hasChannel {
        closing := true;
      }
      closePending, closed := false, true;
    }

    /** The ConnectionTerminated event, and the flush that follows the events. */
    method Terminate()
      requires Valid() && fault == NoFault
      modifies this, producers, conn, log
      ensures Valid() && View() == H.Terminate(old(View()))
    {
      TerminateConnection();
      ClosedFlush(View());
      hide H.Flush;
      Flush([]);
    }

    // ----- requests, responses, resets ---------------------------------------------------------------

    /** `remove_response`: end the first producer of the stream. */
    method RemoveResponse(sid: StreamId)
      requires Valid() && Distinct(Queue())
      modifies producers
      ensures Valid() && Queue() == H.EndStream(old(Queue()), sid)
    {
      for i := 0 to |producers|
        invariant forall j :: 0 <= j < i ==> producers[j].sid != sid
        invariant Valid() && Queue() == old(Queue())
      {
        if producers[i].sid == sid {
          ghost var q := Queue();
          producers[i].ended := true;
          assert Queue()[i] == q[i].(ended := true);
          return;
        }
      }
    }

    method RemoveStream(sid: StreamId)
      requires Valid() && Distinct(Queue())
      modifies `requests, producers
      ensures Valid() && View() == H.RemoveStream(old(View()), sid)
    {
      requests := requests - {sid};
      RemoveResponse(sid);
    }

    method SendReset(sid: StreamId)
      requires Valid()
      modifies conn
      ensures Valid() && View() == old(View()).(conn := old(conn.View()).Append(Reset(sid)))
    {
      conn.SendFrame(Reset(sid));
    }

    /** `reset_stream`; h2 accepts the reset unless the stream is closed. */
    method ResetStream(sid: StreamId, accepted: bool, polls: Polls)
      requires Valid() && fault == NoFault && Distinct(Queue())
      modifies this, producers, conn, log
      ensures Valid() && View() == H.Flush(H.ResetLocally(old(View()), sid, accepted), polls)
    {
      hide H.Flush, H.RemoveStream;
      if accepted {
        SendReset(sid);
        RemoveStream(sid);
      }
      assert View() == H.ResetLocally(old(View()), sid, accepted);
      hide H.ResetLocally;
      Flush(polls);
    }

    method EndBeyond(last: int)
      requires Valid() && Distinct(Queue())
      modifies producers
      ensures Valid() && Queue() == H.EndBeyond(old(Queue()), last)
    {
      ghost var q := Queue();
      for i := 0 to |producers|
        invariant Valid() && Distinct(Queue()) && |Queue()| == |q|
        invariant forall k :: 0 <= k < i ==> Queue()[k] == H.EndBeyond(q, last)[k]
        invariant forall k :: i <= k < |q| ==> Queue()[k] == q[k]
      {
        EndIfBeyond(i, last);
        hide Queue, Distinct, Valid;
      }
    }

    method EndIfBeyond(i: nat, last: int)
      requires Valid() && Distinct(Queue()) && i < |producers|
      modifies producers
      ensures Valid() && Distinct(Queue())
      ensures var p := old(Queue())[i];
              Queue() == old(Queue())[i := if p.sid > last then p.(ended := true) else p]
    {
      if producers[i].sid > last {
        RemoveResponse(producers[i].sid);
      }
    }

    method DropBeyond(last: int)
      requires Valid() && Distinct(Queue())
      modifies `requests, producers
      ensures Valid() && View() == H.DropBeyond(old(View()), last)
    {
      if last != 0 {
        hide H.EndBeyond;
        requests := set sid | sid in requests && sid <= last;
        EndBeyond(last);
      }
    }

    method Close(last: int, polls: Polls)
      requires Valid() && fault == NoFault && Distinct(Queue())
      modifies this, producers, conn, log
      ensures Valid() && View() == H.Close(old(View()), last, polls)
    {
      hide H.Flush, H.DropBeyond;
      if closed || closePending {
        return;
      }
      ghost var s := View();
      closePending := true;
      assert View() == s.(closePending := true);
      DropBeyond(last);
      assert View() == H.DropBeyond(s.(closePending := true), last);
      HasChannelStays(s.(closePending := true), last);
      if hasChannel {
        Flush(polls);
      } else {
        TerminateConnection();
      }
    }

    /** The channel is gone, and closes what was attached to it. */
    method LoseChannel()
      requires Valid() && fault == NoFault && Distinct(Queue())
      modifies this, producers, conn, log
      ensures Valid() && View() == H.Close(old(View()).(hasChannel := false), 0, [])
    {
      AbortChannel();
      Close(0, []);
    }

    /** The channel is gone, and nothing else is told. */
    method AbortChannel()
      modifies `hasChannel
      ensures View() == old(View()).(hasChannel := false)
    {
      hide Queue, Connection.View;
      hasChannel := false;
    }

    method HandleRequest(sid: StreamId)
      modifies `seen, `requests
      ensures View() == H.HandleRequest(old(View()), sid)
    {
      if sid !in seen {
        seen := seen + {sid};
        if hasChannel && !closePending && !closed {
          requests := requests + {sid};
        }
      }
    }

    method SortProducers()
      requires Valid()
      modifies `producers
      ensures Valid() && Queue() == Sort(old(Queue())) && View() == old(View()).(queue := Queue())
      ensures forall p :: p in producers <==> p in old(producers)
    {
      assert Views(producers) == Queue();
      SortViews(producers);
      DistinctObjects(producers, SortObjects(producers));
      producers := SortObjects(producers);
      assert Views(producers) == Queue();
    }

    method AddProducer(producer: Http2Producer)
      requires Valid() && producer !in producers && producer.conn == conn && producer.log == log
      modifies `producers
      ensures Valid() && View() == old(View()).(queue := Sort(old(Queue()) + [producer.View()]))
      ensures forall i :: 0 <= i < |producers| ==> producers[i] in old(producers) || producers[i] == producer
    {
      hide Sort, Connection.View;
      ghost var all := producers + [producer];
      producers := producers + [producer];
      assert Queue() == old(Queue()) + [producer.View()];
      assert View() == old(View()).(queue := Queue());
      hide View;
      SortProducers();
      assert forall i :: 0 <= i < |producers| ==> producers[i] in producers && producers[i] in all;
    }

    /** What PRIORITY events said about the stream, which the table forgets. */
    method TakePriority(sid: StreamId) returns (dependsOn: nat, weight: nat)
      modifies `priorities
      ensures (dependsOn, weight) == H.PriorityOf(old(View()), sid)
      ensures View() == old(View()).(priorities := Priorities.Remove(old(priorities), sid))
    {
      hide Queue, Connection.View;
      var e := Priorities.Find(priorities, sid);
      dependsOn, weight := 0, 1;
      if e.Some? {
        dependsOn, weight := e.value.dependsOn, e.value.weight;
        priorities := Priorities.Remove(priorities, sid);
      } else {
        RemoveAbsent(priorities, sid);
      }
    }

    method NoteHanded(sid: StreamId, m: Message)
      modifies `handed
      ensures View() == old(View()).(handed := old(handed)[sid := m])
    {
      hide Queue, Connection.View;
      handed := handed[sid := m];
    }

    method Enqueue(sid: StreamId, m: Message)
      requires Valid()
      modifies `priorities, `producers, `handed
      ensures Valid() && View() == H.Enqueue(old(View()), sid, m)
      ensures forall i :: 0 <= i < |producers| ==> producers[i] in old(producers) || fresh(producers[i])
    {
      hide Sort, NewProducer, H.PriorityOf, Priorities.Remove, Priorities.Find;
      ghost var s := View();
      var dependsOn, weight := TakePriority(sid);
      ghost var s1 := View();
      var producer := new Http2Producer(conn, log, sid, m, dependsOn, weight);
      assert View() == s1;
      AddProducer(producer);
      NoteHanded(sid, m);
      assert View() ==
             s1.(queue := Sort(s.queue + [NewProducer(sid, m, dependsOn, weight)]), handed := s.handed[sid := m]);
      hide View;
    }

    /** `response.done` followed by `handle_response`. */
    method HandleResponse(sid: StreamId, m: Message, forceClose: bool, polls: Polls, polls': Polls)
      requires Valid() && H.Inv(View()) && fault == NoFault
      modifies this, producers, conn, log
      ensures Valid() && View() == H.HandleResponse(old(View()), sid, m, forceClose, polls, polls')
    {
      hide H.Flush, H.Close, H.Enqueue, H.Core;
      if sid in handed || sid !in requests {
        return;
      }
      ghost var s := View();
      Enqueue(sid, m);
      EnqueueFault(s, sid, m);
      H.EnqueueKeeps(s, sid, m);
      H.FlushKeeps(View(), polls);
      ghost var objects := producers;
      Flush(polls);
      if fault == NoFault && forceClose {
        StillDistinct(View());
        assert forall i :: 0 <= i < |producers| ==> producers[i] in producers && producers[i] in objects;
        Close(0, polls');
      }
    }

    /** The end of `response.done`, which catches what `handle_response` raises. */
    method Respond(sid: StreamId, m: Message, forceClose: bool, polls: Polls, polls': Polls)
      requires Valid() && H.Inv(View()) && fault == NoFault
      modifies this, producers, conn, log
      ensures Valid() && fault == NoFault
      ensures View() == H.Caught(H.HandleResponse(old(View()), sid, m, forceClose, polls, polls'))
    {
      hide H.HandleResponse, H.Inv;
      HandleResponse(sid, m, forceClose, polls, polls');
      ghost var s := View();
      if fault != NoFault {
        fault := NoFault;
        assert Queue() == s.queue;
      }
    }

    /** A PRIORITY event: who depended on the parent depends on the stream now, if it is exclusive, and
        the stream on the parent. */
    method PriorityUpdated(sid: StreamId, dependsOn: nat, weight: nat, exclusive: bool)
      modifies `priorities
      ensures priorities == Priorities.Update(old(priorities), sid, dependsOn, weight, exclusive)
      ensures sid != dependsOn ==> forall x ::
                var before, after := Priorities.Find(old(priorities), x), Priorities.Find(priorities, x);
                after == if x == sid then Some(Priorities.Entry(sid, dependsOn, weight))
                         else if exclusive && before.Some? && before.value.dependsOn == dependsOn then
                           Some(before.value.(dependsOn := sid))
                         else before
    {
      ghost var table := priorities;
      if exclusive {
        var i := 0;
        while i < |priorities|
          invariant i <= |priorities| == |table|
          invariant priorities == Priorities.Adopt(table[..i], dependsOn, sid) + table[i..]
        {
          Priorities.AdoptStep(table, i, dependsOn, sid);
          hide Priorities.Adopt;
          if priorities[i].dependsOn == dependsOn {
            priorities := priorities[i := priorities[i].(dependsOn := sid)];
          }
          i := i + 1;
        }
        assert table[..|table|] == table && table[|table|..] == [];
        assert priorities == Priorities.Adopt(table, dependsOn, sid);
      }
      priorities := Priorities.Assign(priorities, Priorities.Entry(sid, dependsOn, weight));
      hide Priorities.Adopt, Priorities.Assign, Priorities.Find;
      forall x | sid != dependsOn {
        Priorities.ExclusiveTakesOver(table, sid, dependsOn, weight, exclusive, x);
      }
    }
  }

  lemma ClosedFlush(s: H.Engine)
    requires s.closed && s.fault == NoFault
    ensures H.Flush(s, []) == H.Refresh(s)
  {
  }

  lemma HasChannelStays(s: H.Engine, last: int)
    ensures H.DropBeyond(s, last).hasChannel == s.hasChannel && H.DropBeyond(s, last).fault == s.fault
  {
  }

  lemma {:induction false} RemoveAbsent(t: Priorities.Table, sid: StreamId)
    requires Priorities.Find(t, sid).None?
    ensures Priorities.Remove(t, sid) == t
  {
    if t != [] {
      RemoveAbsent(t[1..], sid);
      assert t == [t[0]] + t[1..];
    }
  }

  lemma EnqueueFault(s: H.Engine, sid: StreamId, m: Message)
    ensures H.Enqueue(s, sid, m).fault == s.fault
  {
  }

  lemma StillDistinct(s: H.Engine)
    requires H.Inv(s) && s.fault == NoFault
    ensures Distinct(s.queue)
  {
  }
}
