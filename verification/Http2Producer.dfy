/** One queued response: `http2_producer`. `Produce` is the value-level step; the class is the
    object the handler queues, and its method is proved to take exactly that step. */
module Http2Producer {
  import opened Octets
  import opened Http2Stream
  import opened H2Connection
  import opened Wrappers

  const SIZE_BUFFER := 16384

  /** Answers of the body's `ready` during one call of `produce`: before fetching a chunk, and
      before looking ahead for the next one. A body without `ready` is never asked. */
  datatype Readiness = Readiness(fetch: bool, lookAhead: bool)

  /** `headers` is None once sent; `next` is empty when `_next_data` is None; `more` is what the
      body has still to yield; `sent` is `_bytes`. */
  datatype Producer = Producer(
    sid: StreamId,
    headers: Option<HeaderBlock>,
    hasBody: bool,
    polled: bool,
    more: seq<Chunk>,
    trailers: HeaderBlock,
    dependsOn: nat,
    priority: nat,
    sent: nat,
    next: seq<Octet>,
    ended: bool)

  /** `frames` went to the connection in order; `produced` is the truth of the returned value;
      `logged` tells that the log hook was called; `refused` that h2 raised FlowControlError. */
  datatype Outcome = Outcome(p: Producer, frames: seq<Frame>, produced: bool, logged: bool, refused: bool)

  function NewProducer(sid: StreamId, m: Message, dependsOn: nat, priority: nat): Producer {
    Producer(sid, Some(m.headers), m.body.Some?, m.polled, if m.body.Some? then m.body.value else [],
             m.trailers, dependsOn, priority, 0, [], false)
  }

  // ----- scheduling order -----------------------------------------------------------------

  predicate Before(dependsOn: nat, priority: nat, sid: StreamId, dependsOn': nat, priority': nat, sid': StreamId) {
    if dependsOn == dependsOn' then
      if priority == priority' then sid < sid' else priority > priority'
    else dependsOn < dependsOn'
  }

  predicate Less(a: Producer, b: Producer) {
    Before(a.dependsOn, a.priority, a.sid, b.dependsOn, b.priority, b.sid)
  }

  // ----- one call of produce ---------------------------------------------------------------

  function HeaderFrames(p: Producer): seq<Frame> {
    if p.headers.Some? then [Headers(p.sid, p.headers.value, !p.hasBody && p.trailers == [])] else []
  }

  function FinalFrames(p: Producer, octets: seq<Octet>): seq<Frame> {
    [Data(p.sid, octets, p.trailers == [])] + (if p.trailers != [] then [Headers(p.sid, p.trailers, true)] else [])
  }

  function PartFrames(p: Producer, octets: seq<Octet>): seq<Frame> {
    if p.ended then FinalFrames(p, octets) else [Data(p.sid, octets, false)]
  }

  /** Send one part, which is the last one when the producer has ended. */
  function Deliver(p: Producer, start: seq<Frame>, octets: seq<Octet>, w: int): Outcome {
    if |octets| > w then Outcome(p, start, false, false, true)
    else Outcome(p, start + PartFrames(p, octets), true, p.ended, false)
  }

  datatype Part = Part(p: Producer, octets: seq<Octet>)

  function CutLength(data: seq<Octet>, w: int): (k: nat)
    ensures k <= |data|
    ensures w > 0 ==> k <= Min(SIZE_BUFFER, w) && (data != [] ==> k > 0)
  {
    if |data| > Min(SIZE_BUFFER, w) then SliceBound(data, Min(SIZE_BUFFER, w)) else |data|
  }

  /** When nothing is held back, look ahead for the end of the body. */
  function LookedAhead(p: Producer, r: Readiness): Producer {
    if p.next == [] && (!p.polled || r.lookAhead) then
      if p.more == [] then p.(ended := true) else p.(next := p.more[0], more := p.more[1..])
    else p
  }

  /** Cut `data` to the window. */
  function CutPart(p: Producer, data: seq<Octet>, rest: seq<Chunk>, w: int, r: Readiness): Part {
    var k := CutLength(data, w);
    Part(LookedAhead(p.(sent := p.sent + k, next := data[k..], more := rest), r), data[..k])
  }

  function NextPart(p: Producer, w: int, r: Readiness): Part {
    if p.next != [] then CutPart(p, p.next, p.more, w, r)
    else if p.more == [] then Part(p.(ended := true), [])
    else CutPart(p, p.more[0], p.more[1..], w, r)
  }

  /** No octets at hand, and a body that says it is not ready. */
  predicate Starved(p: Producer, r: Readiness) {
    p.next == [] && p.polled && !r.fetch
  }

  function Turn(p: Producer, w: int, r: Readiness): Outcome {
    if p.ended || w == 0 then Outcome(p, [], false, false, false)
    else
      var start, q := HeaderFrames(p), p.(headers := None);
      if !p.hasBody then Outcome(q.(ended := true), start, p.headers.Some?, true, false)
      else if Starved(p, r) then Outcome(q, start, p.headers.Some?, false, false)
      else
        var part := NextPart(q, w, r);
        Deliver(part.p, start, part.octets, w)
  }

  // ----- what a step keeps ------------------------------------------------------------------

  /** A queued producer remembers exactly what the client of its stream still lacks. */
  predicate Tracks(m: Message, p: Producer, r: Reader) {
    && p.hasBody == m.body.Some? && p.polled == m.polled && p.trailers == m.trailers
    && (!p.hasBody ==> p.headers.Some? && p.next == [] && p.more == [])
    && match p.headers
       case Some(h) => r == Idle && h == m.headers && p.sent == 0 && p.next + Flatten(p.more) == Content(m)
       case None => r.Open? && r.headers == m.headers && p.sent == |r.got|
                    && r.got + (p.next + Flatten(p.more)) == Content(m)
  }

  predicate Complete(m: Message, r: Reader) {
    r == Done(m.headers, Content(m), m.trailers)
  }

  /** What the client holds of a response that was broken off: a beginning of it. */
  predicate Partial(m: Message, r: Reader) {
    r == Idle || (r.Open? && r.headers == m.headers && r.got <= Content(m))
  }

  function AcceptAll(r: Reader, fs: seq<Frame>): Reader
    decreases |fs|
  {
    if fs == [] then r else AcceptAll(Accept(r, fs[0]), fs[1..])
  }

  lemma {:induction false} ReadAppend(frames: seq<Frame>, fs: seq<Frame>)
    ensures Read(frames + fs) == AcceptAll(Read(frames), fs)
    decreases |fs|
  {
    if fs == [] {
      assert frames + fs == frames;
    } else {
      assert frames + fs == (frames + [fs[0]]) + fs[1..];
      assert (frames + [fs[0]])[..|frames|] == frames;
      ReadAppend(frames + [fs[0]], fs[1..]);
    }
  }

  lemma {:induction false} AcceptTwice(r: Reader, a: seq<Frame>, b: seq<Frame>)
    ensures AcceptAll(r, a + b) == AcceptAll(AcceptAll(r, a), b)
    decreases |a|
  {
    if a == [] {
      assert a + b == b;
    } else {
      assert (a + b)[1..] == a[1..] + b;
      AcceptTwice(Accept(r, a[0]), a[1..], b);
    }
  }

  lemma AcceptParts(r: Reader, p: Producer, octets: seq<Octet>)
    requires r.Open?
    ensures AcceptAll(r, PartFrames(p, octets)) ==
            if p.ended then Done(r.headers, r.got + octets, p.trailers) else Open(r.headers, r.got + octets)
  {
    var fs := PartFrames(p, octets);
    var r1 := Accept(r, fs[0]);
    assert AcceptAll(r, fs) == AcceptAll(r1, fs[1..]);
    if p.ended && p.trailers != [] {
      assert AcceptAll(r1, fs[1..]) == AcceptAll(Accept(r1, fs[1]), []);
    } else {
      assert fs[1..] == [];
    }
  }

  lemma AcceptHeaders(m: Message, p: Producer, r: Reader)
    requires Tracks(m, p, r)
    ensures var r' := AcceptAll(r, HeaderFrames(p));
            if p.hasBody then Tracks(m, p.(headers := None), r') else Complete(m, r')
  {
    if p.headers.Some? {
      var start := HeaderFrames(p);
      assert AcceptAll(r, start) == AcceptAll(Accept(r, start[0]), []);
    }
  }

  lemma CutPartKeeps(p: Producer, data: Chunk, rest: seq<Chunk>, w: int, r: Readiness)
    requires !p.ended
    ensures var part := CutPart(p, data, rest, w, r); var left := part.p.next + Flatten(part.p.more);
            && data + Flatten(rest) == part.octets + left
            && part.p ==
                 p.(sent := p.sent + |part.octets|, next := part.p.next, more := part.p.more, ended := part.p.ended)
            && (part.p.ended ==> left == [])
            && (w > 0 ==> part.octets != [])
  {
    var part, k := CutPart(p, data, rest, w, r), CutLength(data, w);
    hide CutLength;
    assert data == data[..k] + data[k..];
    assert data + Flatten(rest) == data[..k] + (data[k..] + Flatten(rest));
    if part.p.next != data[k..] {
      assert data[k..] + Flatten(rest) == Flatten(rest);
    }
  }

  /** Taking the next part moves its octets from what is left to what the client gets. */
  lemma NextPartKeeps(p: Producer, w: int, r: Readiness)
    requires !p.ended
    ensures var part := NextPart(p, w, r); var left := part.p.next + Flatten(part.p.more);
            && p.next + Flatten(p.more) == part.octets + left
            && part.p ==
                 p.(sent := p.sent + |part.octets|, next := part.p.next, more := part.p.more, ended := part.p.ended)
            && (part.p.ended ==> left == [])
            && (w > 0 && part.octets == [] ==> part.p.ended)
  {
    if p.next != [] {
      CutPartKeeps(p, p.next, p.more, w, r);
    } else if p.more != [] {
      CutPartKeeps(p, p.more[0], p.more[1..], w, r);
    }
  }

  lemma PartTracks(m: Message, p: Producer, r: Reader, w: int, rd: Readiness)
    requires Tracks(m, p, r) && !p.ended && p.hasBody && p.headers.None?
    ensures var part := NextPart(p, w, rd); var r' := AcceptAll(r, PartFrames(part.p, part.octets));
            if part.p.ended then Complete(m, r') && part.p.sent == |Content(m)| else Tracks(m, part.p, r')
  {
    var part := NextPart(p, w, rd);
    NextPartKeeps(p, w, rd);
    AcceptParts(r, part.p, part.octets);
    hide NextPart, AcceptAll, PartFrames, Flatten;
    var left := part.p.next + Flatten(part.p.more);
    assert r.got + (part.octets + left) == (r.got + part.octets) + left;
  }

  /** The heart of the interleaving theorem: one call moves a piece of the response from the
      producer to the client; when the producer ends, the client has the whole of it, and that is
      exactly when the log hook is called, with the number of body octets. */
  lemma TurnTracks(m: Message, p: Producer, r: Reader, w: int, rd: Readiness)
    requires Tracks(m, p, r) && !p.ended
    requires !Turn(p, w, rd).refused
    ensures var s := Turn(p, w, rd); var r' := AcceptAll(r, s.frames);
            && (s.p.ended <==> s.logged)
            && (s.logged ==> s.produced && Complete(m, r') && s.p.sent == |Content(m)|)
            && (!s.logged ==> Tracks(m, s.p, r'))
  {
    hide NextPart, PartFrames;
    if w != 0 {
      var start, q := HeaderFrames(p), p.(headers := None);
      AcceptHeaders(m, p, r);
      if p.hasBody && !Starved(p, rd) {
        var part := NextPart(q, w, rd);
        AcceptTwice(r, start, PartFrames(part.p, part.octets));
        PartTracks(m, q, AcceptAll(r, start), w, rd);
      }
    }
  }

  // ----- flow control -------------------------------------------------------------------------

  /** A call that has a DATA frame to send: open, not blocked, with a body that is ready. */
  predicate HasDataFrame(p: Producer, w: int, r: Readiness) {
    !p.ended && w != 0 && p.hasBody && !Starved(p, r)
  }

  lemma DataInParts(p: Producer, octets: seq<Octet>)
    ensures DataSent(PartFrames(p, octets)) == |octets|
  {
    var fs := PartFrames(p, octets);
    assert fs == [fs[0]] + fs[1..];
    DataSentAppend([fs[0]], fs[1..]);
    assert [fs[0]][..0] == [];
    if |fs| == 2 {
      assert fs[1..][..0] == [];
    }
  }

  lemma HeadersAreFree(p: Producer)
    ensures DataSent(HeaderFrames(p)) == 0 && DataSent([]) == 0
  {
    if p.headers.Some? {
      assert HeaderFrames(p)[..0] == [];
    }
  }

  lemma PartIsShort(p: Producer, w: int, r: Readiness)
    requires w > 0
    ensures |NextPart(p, w, r).octets| <= Min(16384, w)
  {
  }

  lemma PartsOwn(p: Producer, octets: seq<Octet>)
    ensures forall f :: f in PartFrames(p, octets) ==> Carries(f) && f.sid == p.sid
  {
  }

  lemma OwnStreamOnly(p: Producer, w: int, r: Readiness)
    ensures forall f :: f in Turn(p, w, r).frames ==> Carries(f) && f.sid == p.sid
    ensures Turn(p, w, r).p.sid == p.sid
  {
    if HasDataFrame(p, w, r) {
      var part := NextPart(p.(headers := None), w, r);
      NextPartKeeps(p.(headers := None), w, r);
      PartsOwn(part.p, part.octets);
      hide NextPart, PartFrames, Flatten;
    }
  }

  /** `produce` blocks on a window of zero only. h2 refuses the frame exactly when the window is
      negative: the slice bound is then negative too. What goes out fits the window and the 16384 octets
      of section 6.5.2 of RFC 7540. */
  lemma RefusedIffNegative(p: Producer, w: int, r: Readiness)
    ensures var s := Turn(p, w, r);
            && (s.refused <==> w < 0 && !p.ended && p.hasBody && (p.next != [] || !p.polled || r.fetch))
            && DataSent(s.frames) <= Max(0, Min(16384, w))
  {
    var start, s := HeaderFrames(p), Turn(p, w, r);
    HeadersAreFree(p);
    if HasDataFrame(p, w, r) {
      var part := NextPart(p.(headers := None), w, r);
      if w > 0 { PartIsShort(p.(headers := None), w, r); }
      DataInParts(part.p, part.octets);
      DataSentAppend(start, PartFrames(part.p, part.octets));
      hide NextPart, PartFrames, DataSent, HeaderFrames;
    }
  }

  /** Exactly what a call with a window sends when its body is ready: as much of the octets at hand as
      16384 and the window allow. The stream ends with them when they are the last, and a body that
      says when it is ready says that it is; so an empty frame ends a body only when nothing was at hand. */
  lemma SendsExactly(p: Producer, w: int, r: Readiness)
    requires w > 0 && !p.ended && p.hasBody && (p.next != [] || !p.polled || r.fetch)
    ensures var s, data := Turn(p, w, r), AtHand(p);
            var k, rest := Min(Min(16384, w), |data|), if p.next != [] || p.more == [] then p.more else p.more[1..];
            && s.produced && !s.refused && s.p.sent == p.sent + k && DataSent(s.frames) == k
            && (s.p.ended <==> k == |data| && rest == [] && (data == [] || !p.polled || r.lookAhead))
            && (k < |data| ==> s.p.next == data[k..] && s.p.more == rest)
  {
    var start, q := HeaderFrames(p), p.(headers := None);
    var part := NextPart(q, w, r);
    HeadersAreFree(p);
    DataInParts(part.p, part.octets);
    DataSentAppend(start, PartFrames(part.p, part.octets));
    PartIsExact(q, w, r);
    hide NextPart, PartFrames, DataSent, HeaderFrames;
  }

  lemma PartIsExact(p: Producer, w: int, r: Readiness)
    requires w > 0 && !p.ended
    ensures var part, data := NextPart(p, w, r), AtHand(p);
            var k, rest := Min(Min(16384, w), |data|), if p.next != [] || p.more == [] then p.more else p.more[1..];
            && |part.octets| == k && k <= w && part.p.sent == p.sent + k
            && (part.p.ended <==> k == |data| && rest == [] && (data == [] || !p.polled || r.lookAhead))
            && (k < |data| ==> part.p.next == data[k..] && part.p.more == rest)
  {
  }

  // ----- what a refused call loses --------------------------------------------------------------------

  /** The octets the next DATA frame is cut from. */
  function AtHand(p: Producer): seq<Octet> {
    if p.next != [] then p.next else if p.more == [] then [] else p.more[0]
  }

  /** A call that h2 refuses has lost something: octets it has cut off and counted, or, when there
      are none left, the end of the stream. */
  predicate Lost(p: Producer, s: Outcome) {
    s.refused && (s.p.ended || s.p.sent != p.sent)
  }

  /** A producer that lost octets, or its end, in a refused call: it has counted more than the client
      got, or is ended while its client still waits. */
  predicate Damaged(m: Message, p: Producer, r: Reader) {
    && p.hasBody && m.body.Some? && p.polled == m.polled && p.trailers == m.trailers && p.headers.None?
    && r.Open? && r.headers == m.headers
    && p.sent + |p.next + Flatten(p.more)| == |Content(m)|
    && (p.ended || |r.got| < p.sent)
  }

  /** A response that looks complete, and is not. */
  predicate Short(m: Message, r: Reader) {
    r.Done? && r.headers == m.headers && r.trailers == m.trailers && |r.got| < |Content(m)|
  }

  /** h2 refuses the frame after the octets have left the producer. A window of -n loses the octets at
      hand but for the last n, and so none when they are n or fewer; the producer goes on as if
      nothing had happened exactly then. With no octets left it loses the end of the stream. */
  lemma RefusedLoses(m: Message, p: Producer, r: Reader, w: int, rd: Readiness)
    requires Tracks(m, p, r) && Turn(p, w, rd).refused
    ensures var s, data := Turn(p, w, rd), AtHand(p);
            var r', k := AcceptAll(r, s.frames), Max(0, |data| + w);
            && s.frames == HeaderFrames(p) && !s.logged && r'.Open? && s.p.sent == p.sent + k && k <= |data|
            && Content(m) == r'.got + (data[..k] + (s.p.next + Flatten(s.p.more)))
            && (Lost(p, s) <==> data == [] || |data| > -w)
            && (if Lost(p, s) then Damaged(m, s.p, r') else Tracks(m, s.p, r') && !s.p.ended)
  {
    var q, data := p.(headers := None), AtHand(p);
    AcceptHeaders(m, p, r);
    var r' := AcceptAll(r, HeaderFrames(p));
    assert Content(m) == r'.got + (q.next + Flatten(q.more));
    hide NextPart, AcceptAll, HeaderFrames, Flatten, Content;
    RefusedIffNegative(p, w, rd);
    NextPartKeeps(q, w, rd);
    PartAtHand(q, w, rd);
  }

  lemma PartAtHand(p: Producer, w: int, r: Readiness)
    requires !p.ended && w < 0
    ensures var part, data := NextPart(p, w, r), AtHand(p); var k := Max(0, |data| + w);
            k <= |data| && part.octets == data[..k] && (part.p.ended <==> data == [])
  {
  }

  /** A damaged producer stays damaged, and if its stream ends, it ends short, and is logged as whole. */
  lemma DamagedTurn(m: Message, p: Producer, r: Reader, w: int, rd: Readiness)
    requires Damaged(m, p, r) && !p.ended
    ensures var s := Turn(p, w, rd); var r' := AcceptAll(r, s.frames);
            if s.refused then !s.logged && Damaged(m, s.p, r')
            else
              && (s.p.ended <==> s.logged)
              && if s.logged then s.produced && Short(m, r') && s.p.sent == |Content(m)| else Damaged(m, s.p, r')
  {
    var s := Turn(p, w, rd);
    if HasDataFrame(p, w, rd) {
      var part := NextPart(p, w, rd);
      NextPartKeeps(p, w, rd);
      AcceptParts(r, part.p, part.octets);
      assert p.(headers := None) == p && [] + PartFrames(part.p, part.octets) == PartFrames(part.p, part.octets);
      hide NextPart, AcceptAll, PartFrames, Flatten, Content;
    }
  }

  const FIRST: Chunk := [100, 101, 102]
  const SECOND: Chunk := [0, 1, 2, 3, 4, 5, 6, 7, 8, 9]

  /** A response in two parts, with a body that says when it is ready. */
  const SPLIT: Message := Message(OK_STATUS, Some([FIRST, SECOND]), true, [])

  /** Its producer, when the first part has been sent. */
  function HalfSent(): Producer {
    NewProducer(1, SPLIT, 0, 1).(headers := None, sent := 3, more := [SECOND])
  }

  lemma HalfIsSent()
    ensures Turn(NewProducer(1, SPLIT, 0, 1), 65535, Readiness(true, false)) ==
            Outcome(HalfSent(), [Headers(1, OK_STATUS, false), Data(1, FIRST, false)], true, false, false)
  {
    var p := NewProducer(1, SPLIT, 0, 1).(headers := None);
    assert p.more[1..] == [SECOND] && FIRST[..3] == FIRST && FIRST[3..] == [];
    assert NextPart(p, 65535, Readiness(true, false)) == Part(HalfSent(), FIRST);
    var f, g := Headers(1, OK_STATUS, false), Data(1, FIRST, false);
    assert [f] + [g] == [f, g];
  }

  /** The initial window is now zero: three octets have been sent, so the window is -3, and the slice
      bound is negative as well. h2 is offered seven octets and refuses. */
  lemma NegativeWindowIsOverrun()
    ensures SliceBound(SECOND, Min(SIZE_BUFFER, -3)) == 7
    ensures Turn(HalfSent(), -3, Readiness(true, true)) ==
            Outcome(HalfSent().(sent := 10, next := [7, 8, 9], more := []), [], false, false, true)
  {
    var p := HalfSent();
    assert p.more[1..] == [] && SECOND[..7] == [0, 1, 2, 3, 4, 5, 6] && SECOND[7..] == [7, 8, 9];
    assert p.(headers := None) == p;
    assert NextPart(p, -3, Readiness(true, true)) == Part(p.(sent := 10, next := [7, 8, 9], more := []), SECOND[..7]);
  }

  /** When the window opens again, the last three octets end the stream: the client reads a complete
      response of six octets, and thirteen are logged. */
  lemma TruncationExample(w: int)
    requires w >= 3
    ensures var p := HalfSent().(sent := 10, next := [7, 8, 9], more := []);
            var s := Turn(p, w, Readiness(true, true));
            && Lost(HalfSent(), Turn(HalfSent(), -3, Readiness(true, true)))
            && s == Outcome(p.(sent := 13, next := [], ended := true), [Data(1, [7, 8, 9], true)], true, true, false)
            && Read([Headers(1, OK_STATUS, false), Data(1, FIRST, false)] + s.frames) ==
               Done(OK_STATUS, FIRST + [7, 8, 9], [])
  {
    var p := HalfSent().(sent := 10, next := [7, 8, 9], more := []);
    NegativeWindowIsOverrun();
    assert [7, 8, 9][3..] == [] && [7, 8, 9][..3] == [7, 8, 9] && p.(headers := None) == p;
    assert NextPart(p, w, Readiness(true, true)) == Part(p.(sent := 13, next := [], ended := true), [7, 8, 9]);
    ReadsSix();
  }

  lemma ReadsSix()
    ensures Read([Headers(1, OK_STATUS, false), Data(1, FIRST, false)] + [Data(1, [7, 8, 9], true)]) ==
            Done(OK_STATUS, FIRST + [7, 8, 9], [])
  {
    var frames := [Headers(1, OK_STATUS, false), Data(1, FIRST, false), Data(1, [7, 8, 9], true)];
    assert [Headers(1, OK_STATUS, false), Data(1, FIRST, false)] + [Data(1, [7, 8, 9], true)] == frames;
    assert frames[..2][..1][..0] == [] && frames[..2][..1] == [Headers(1, OK_STATUS, false)];
    assert Read(frames[..2][..1]) == Open(OK_STATUS, []) && [] + FIRST == FIRST;
    assert Read(frames[..2]) == Open(OK_STATUS, FIRST);
  }

  lemma PartFits(c: Conn, p: Producer, octets: seq<Octet>)
    requires |octets| <= Min(16384, c.Window(p.sid))
    ensures Fits(c, PartFrames(p, octets), 16384)
  {
    var fs := PartFrames(p, octets);
    assert Fits(c.Append(fs[0]), fs[1..], 16384) by {
      if |fs| == 2 { assert fs[1..][1..] == []; }
    }
  }

  lemma HeadersFit(c: Conn, p: Producer)
    ensures Fits(c, HeaderFrames(p), 16384)
    ensures c.AppendAll(HeaderFrames(p)).Window(p.sid) == c.Window(p.sid)
  {
    if p.headers.Some? {
      var f := HeaderFrames(p)[0];
      AppendOne(c, f);
      assert [f][1..] == [] && Fits(c.Append(f), [], 16384);
    }
  }

  /** What one call sends fits the windows, each DATA frame at its moment, and is within the 16384 octets
      that SETTINGS_MAX_FRAME_SIZE allows without being set: section 6.5.2 of RFC 7540. */
  lemma TurnFits(c: Conn, p: Producer, r: Readiness)
    ensures Fits(c, Turn(p, c.Window(p.sid), r).frames, 16384)
  {
    var start, w, s := HeaderFrames(p), c.Window(p.sid), Turn(p, c.Window(p.sid), r);
    HeadersFit(c, p);
    if HasDataFrame(p, w, r) && !s.refused {
      var part := NextPart(p.(headers := None), w, r);
      RefusedIffNegative(p, w, r);
      PartIsShort(p.(headers := None), w, r);
      NextPartKeeps(p.(headers := None), w, r);
      hide NextPart;
      PartFits(c.AppendAll(start), part.p, part.octets);
      FitsInTurn(c, start, PartFrames(part.p, part.octets), 16384);
    }
  }

  // ----- progress ---------------------------------------------------------------------------------

  /** Work left: the HEADERS frame, the octets, and the end of the stream. */
  function Work(p: Producer): nat {
    if p.ended then 0 else
    (if p.headers.Some? then 1 else 0) + |p.next| + |Flatten(p.more)| + 1
  }

  /** Producers as they wait in the queue: none ended from outside, and none that has sent the only
      HEADERS frame of a response without a body. */
  predicate Waiting(p: Producer) {
    !p.ended && (!p.hasBody ==> p.headers.Some?)
  }

  /** A call that returns a true value lowers the work left; any other leaves producer and wire alone. */
  lemma TurnProgress(p: Producer, w: int, r: Readiness)
    requires p.ended || Waiting(p)
    ensures var s := Turn(p, w, r);
            && (s.produced ==> Work(s.p) < Work(p) && s.frames != [] && !s.refused)
            && (!s.produced && !s.refused ==> s.p == p && s.frames == [] && !s.logged)
  {
    RefusedIffNegative(p, w, r);
    if HasDataFrame(p, w, r) {
      NextPartKeeps(p.(headers := None), w, r);
    }
  }

  /** What goes on waiting after a call can be called again. */
  lemma TurnWaits(p: Producer, w: int, r: Readiness)
    requires Waiting(p)
    ensures var s := Turn(p, w, r); s.p.sid == p.sid && (s.p.ended || Waiting(s.p))
  {
    NextPartKeeps(p.(headers := None), w, r);
    hide NextPart, PartFrames, HeaderFrames, Flatten;
  }

  /** Whoever is ready and has window can send. */
  predicate Able(p: Producer, w: int, r: Readiness) {
    !p.ended && w > 0 && (p.headers.Some? || !Starved(p, r))
  }

  lemma ProducedIffAble(p: Producer, w: int, r: Readiness)
    requires w >= 0 && (p.ended || Waiting(p))
    ensures Turn(p, w, r).produced <==>
              !p.ended && w > 0 && (p.headers.Some? || p.next != [] || !p.polled || r.fetch)
    ensures Turn(p, w, r).produced <==> Able(p, w, r)
  {
    RefusedIffNegative(p, w, r);
  }

  // ----- the object -----------------------------------------------------------------------------------

  /** Where the log hooks of all responses write: stream and octet count. */
  class AccessLog {
    var entries: seq<(StreamId, nat)>

    constructor ()
      ensures entries == []
    {
      entries := [];
    }
  }

  class Http2Producer {
    const conn: Connection
    const log: AccessLog
    const sid: StreamId
    const hasBody: bool
    const polled: bool
    const trailers: HeaderBlock
    const dependsOn: nat
    const priority: nat
    var headers: Option<HeaderBlock>
    var more: seq<Chunk>
    var sent: nat
    var next: seq<Octet>
    var ended: bool

    ghost function View(): Producer
      reads this
    {
      Producer(sid, headers, hasBody, polled, more, trailers, dependsOn, priority, sent, next, ended)
    }

    constructor (conn: Connection, log: AccessLog, sid: StreamId, m: Message, dependsOn: nat, priority: nat)
      ensures View() == NewProducer(sid, m, dependsOn, priority)
      ensures this.conn == conn && this.log == log
    {
      this.conn, this.log, this.sid := conn, log, sid;
      this.dependsOn, this.priority := dependsOn, priority;
      headers, hasBody, polled, trailers := Some(m.headers), m.body.Some?, m.polled, m.trailers;
      more := if m.body.Some? then m.body.value else [];
      sent, next, ended := 0, [], false;
    }

    /** One call of the body's `more`. */
    method More() returns (data: seq<Octet>)
      modifies `more
      ensures data == if old(more) == [] then [] else old(more)[0]
      ensures more == if old(more) == [] then [] else old(more)[1..]
    {
      if more == [] {
        data := [];
      } else {
        data, more := more[0], more[1..];
      }
    }

    method SendFinalData(data: seq<Octet>) returns (refused: bool)
      modifies conn, log
      ensures var w := old(conn.View().Window(sid));
              && refused == (|data| > w)
              && conn.View() == (if refused then old(conn.View())
                                 else old(conn.View()).AppendAll(FinalFrames(View(), data)))
              && log.entries == old(log.entries) + (if refused then [] else [(sid, sent)])
    {
      refused := conn.SendData(sid, data, trailers == []);
      if refused {
        return;
      }
      if trailers != [] {
        conn.SendFrame(Headers(sid, trailers, true));
      }
      FinalInTurn(old(conn.View()), View(), data);
      log.entries := log.entries + [(sid, sent)];
    }

    /** How much of the data goes out now. */
    method Cut(data: seq<Octet>, window: int) returns (k: nat)
      ensures k == CutLength(data, window)
    {
      var available := Min(SIZE_BUFFER, window);
      k := |data|;
      if |data| > available {
        k := SliceBound(data, available);
      }
    }

    /** The middle of `produce`: take the data held back or the next chunk, cut it to the window,
        and look ahead for the end of the body. */
    method TakePart(window: int, r: Readiness) returns (data: seq<Octet>)
      requires !ended
      modifies `sent, `next, `more, `ended
      ensures Part(View(), data) == NextPart(old(View()), window, r)
    {
      hide CutLength, LookedAhead;
      if next != [] {
        data, next := next, [];
      } else {
        data := More();
        if data == [] {
          ended := true;
          return;
        }
      }
      var k := Cut(data, window);
      data, next := data[..k], data[k..];
      sent := sent + |data|;
      LookAhead(r);
    }

    /** A look for the end of the body, when nothing is held back. */
    method LookAhead(r: Readiness)
      modifies `next, `more, `ended
      ensures View() == LookedAhead(old(View()), r)
    {
      if next == [] && (!polled || r.lookAhead) {
        next := More();
        if next == [] {
          ended := true;
        }
      }
    }

    /** The end of `produce`: the part is the last one when the producer has ended. */
    method SendPart(data: seq<Octet>) returns (refused: bool)
      modifies conn, log
      ensures refused == (|data| > old(conn.View().Window(sid)))
      ensures conn.View() == if refused then old(conn.View()) else old(conn.View()).AppendAll(PartFrames(View(), data))
      ensures log.entries == old(log.entries) + (if ended && !refused then [(sid, sent)] else [])
    {
      if ended {
        refused := SendFinalData(data);
      } else {
        AppendOne(conn.View(), Data(sid, data, false));
        refused := conn.SendData(sid, data, false);
      }
    }

    /** `produce`: the order of the effects is the source's. */
    method Produce(r: Readiness) returns (produced: bool, refused: bool)
      modifies this, conn, log
      ensures var s := Turn(old(View()), old(conn.View().Window(sid)), r);
              && View() == s.p && produced == s.produced && refused == s.refused
              && conn.View() == old(conn.View()).AppendAll(s.frames)
              && log.entries == old(log.entries) + (if s.logged then [(sid, s.p.sent)] else [])
    {
      hide NextPart, PartFrames, HeaderFrames;
      if ended {
        return false, false;
      }
      var window := conn.LocalFlowControlWindow(sid);
      if window == 0 {
        return false, false;
      }
      ghost var c, start := conn.View(), HeaderFrames(View());
      HeadersFit(c, View());
      HeadersInTurn(c, View());
      produced := false;
      if headers.Some? {
        conn.SendFrame(Headers(sid, headers.value, !hasBody && trailers == []));
        headers := None;
        produced := true;
      }
      if !hasBody {
        ended := true;
        log.entries := log.entries + [(sid, sent)];
        return produced, false;
      }
      if next == [] && polled && !r.fetch {
        return produced, false;
      }
      var data := TakePart(window, r);
      AppendInTurn(c, start, PartFrames(View(), data));
      refused := SendPart(data);
      produced := !refused;
    }
  }

  lemma HeadersInTurn(c: Conn, p: Producer)
    ensures c.AppendAll(HeaderFrames(p)) ==
            if p.headers.Some? then c.Append(Headers(p.sid, p.headers.value, !p.hasBody && p.trailers == [])) else c
  {
    if p.headers.Some? {
      AppendOne(c, HeaderFrames(p)[0]);
    }
  }

  lemma FinalInTurn(c: Conn, p: Producer, octets: seq<Octet>)
    ensures var c' := c.Append(Data(p.sid, octets, p.trailers == []));
            c.AppendAll(FinalFrames(p, octets)) ==
              if p.trailers != [] then c'.Append(Headers(p.sid, p.trailers, true)) else c'
  {
    var fs := FinalFrames(p, octets);
    assert p.trailers == [] ==> fs[1..] == [];
    assert p.trailers != [] ==> fs[1..] == [Headers(p.sid, p.trailers, true)];
    if p.trailers != [] {
      AppendOne(c.Append(fs[0]), fs[1]);
    }
  }
}
