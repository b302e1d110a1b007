/** The way of a request body on HTTP/2: DATA frames go to a virtual asynchat channel, from there to
    the form collector of the request, and from there in one piece to the application. */
module BodyPath {
  import opened Octets
  import opened Wrappers

  // ----- the state -------------------------------------------------------------------------------

  /** asynchat's terminators: a number of octets, None, or the delimiter CR LF CR LF. */
  datatype Terminator = Count(n: nat) | Unlimited | Delimiter

  const DELIMITER: seq<Octet> := [13, 10, 13, 10]

  /** `inBuffer` is asynchat's, `data` holds what `set_data` brought and `recv` has not taken.
      `continued` are the bodies `continue_request` was called with; `rejected` tells that the request
      was answered with 413 before its body; `raised` is the ValueError of a body that is too large,
      or of a negative terminator. */
  datatype Stream = Stream(
    terminator: Terminator,
    inBuffer: seq<Octet>,
    data: seq<seq<Octet>>,
    chunks: seq<nat>,
    dataSize: nat,
    rbytes: nat,
    collecting: bool,
    contentLength: Option<int>,
    maxLength: nat,
    size: nat,
    buffer: seq<Octet>,
    continued: seq<Option<seq<Octet>>>,
    rejected: bool,
    raised: bool)

  /** The payload of a DATA frame, and its flow-controlled length, which counts the padding. */
  datatype DataFrame = DataFrame(payload: seq<Octet>, size: nat)

  /** The state after an iteration of asynchat's loop, and whether it is the last. */
  datatype Iteration = Iteration(stream: Stream, last: bool)

  /** What the application is given: no file at all for an empty body. */
  function BodyOf(octets: seq<Octet>): Option<seq<Octet>> {
    if octets == [] then None else Some(octets)
  }

  // ----- the delimiter ----------------------------------------------------------------------------

  /** Where the delimiter begins first, or the length. */
  function FindDelimiter(octets: seq<Octet>): (k: nat)
    ensures k < |octets| ==> k + |DELIMITER| <= |octets|
    ensures k <= |octets|
  {
    if octets == [] || DELIMITER <= octets then 0 else 1 + FindDelimiter(octets[1..])
  }

  predicate EndsWith(octets: seq<Octet>, n: nat) {
    n <= |DELIMITER| && n <= |octets| && octets[|octets| - n..] == DELIMITER[..n]
  }

  /** asynchat's `find_prefix_at_end`: how many octets at the end may begin the delimiter. */
  function PrefixAtEnd(octets: seq<Octet>): (n: nat)
    ensures n <= |octets| && n < |DELIMITER|
  {
    if EndsWith(octets, 3) then 3 else if EndsWith(octets, 2) then 2 else if EndsWith(octets, 1) then 1 else 0
  }

  /** CR LF CR LF begins there, */
  predicate EndAt(octets: seq<Octet>, i: nat) {
    i + 4 <= |octets| && octets[i..i + 4] == [13, 10, 13, 10]
  }

  lemma EndAtFront(octets: seq<Octet>)
    ensures DELIMITER <= octets <==> EndAt(octets, 0)
  {
    if |octets| >= 4 {
      assert octets[0..4] == octets[..4] && |DELIMITER| == 4;
    }
  }

  lemma EndAtTail(octets: seq<Octet>, i: nat)
    requires octets != []
    ensures EndAt(octets, i + 1) <==> EndAt(octets[1..], i)
  {
    if i + 5 <= |octets| {
      assert octets[1..][i..i + 4] == octets[i + 1..i + 5];
    }
  }

  /** and this is where it begins first. */
  lemma {:induction false} DelimiterIsFound(octets: seq<Octet>, i: nat)
    ensures var k := FindDelimiter(octets);
            (i < k ==> !EndAt(octets, i)) && (i == k < |octets| ==> EndAt(octets, i))
  {
    if octets != [] {
      EndAtFront(octets);
      if i > 0 {
        EndAtTail(octets, i - 1);
        DelimiterIsFound(octets[1..], i - 1);
      }
      hide EndAt;
    }
  }

  lemma EndsWithIs(octets: seq<Octet>, n: nat)
    requires n <= 3 && n <= |octets|
    ensures EndsWith(octets, n) <==> octets[|octets| - n..] == [13, 10, 13][..n]
  {
    assert DELIMITER[..n] == [13, 10, 13][..n];
  }

  /** As many octets at the end as are a beginning of CR LF CR LF, three at most. */
  lemma PrefixIsLongest(octets: seq<Octet>, k: nat)
    requires k <= 3 && k <= |octets|
    ensures octets[|octets| - k..] == [13, 10, 13][..k] ==> k <= PrefixAtEnd(octets)
    ensures k == PrefixAtEnd(octets) ==> octets[|octets| - k..] == [13, 10, 13][..k]
  {
    EndsWithIs(octets, k);
    PrefixIsFound(octets, k);
    hide EndsWith, PrefixAtEnd;
  }

  lemma PrefixIsFound(octets: seq<Octet>, k: nat)
    requires k <= 3 && k <= |octets|
    ensures EndsWith(octets, k) ==> k <= PrefixAtEnd(octets)
    ensures k == PrefixAtEnd(octets) ==> EndsWith(octets, k)
  {
    assert EndsWith(octets, 0) by {
      assert octets[|octets|..] == [] && DELIMITER[..0] == [];
    }
    hide EndsWith;
    assert k == 0 || k == 1 || k == 2 || k == 3;
  }

  // ----- the steps ------------------------------------------------------------------------------

  /** `FormCollector.found_terminator`, or the warning of a request without a collector. */
  function FoundTerminator(s: Stream): Stream {
    if !s.collecting then s
    else s.(collecting := false, terminator := Delimiter, continued := s.continued + [BodyOf(s.buffer)])
  }

  /** `collect_incoming_data` of request and collector; without a collector the octets are dropped. */
  function Collect(s: Stream, octets: seq<Octet>): Stream {
    if !s.collecting then s
    else
      var s1 := s.(rbytes := s.rbytes + |octets|, size := s.size + |octets|);
      if s.maxLength != 0 && s1.size > s.maxLength then s1.(raised := true)
      else s1.(buffer := s.buffer + octets)
  }

  /** The first octets of the buffer are collected; an exception leaves them there. */
  function Take(s: Stream, k: nat): Stream
    requires k <= |s.inBuffer|
  {
    var s1 := Collect(s, s.inBuffer[..k]);
    if s1.raised then s1 else s1.(inBuffer := s.inBuffer[k..])
  }

  /** One iteration of asynchat's loop. It is the last when the buffer is used up or may end in a
      beginning of the delimiter. */
  function Once(s: Stream): (r: Iteration)
    requires s.inBuffer != []
    ensures r.last || r.stream.raised || |r.stream.inBuffer| < |s.inBuffer|
  {
    match s.terminator
    case Unlimited => Iteration(Take(s, |s.inBuffer|), true)
    case Count(n) =>
      if n == 0 then Iteration(Take(s, |s.inBuffer|), true)
      else if |s.inBuffer| < n then
        var s1 := Take(s, |s.inBuffer|);
        Iteration(if s1.raised then s1 else s1.(terminator := Count(n - |s.inBuffer|)), true)
      else
        var s1 := Take(s, n);
        Iteration(if s1.raised then s1 else FoundTerminator(s1.(terminator := Count(0))), false)
    case Delimiter =>
      var k := FindDelimiter(s.inBuffer);
      if k == |s.inBuffer| then Iteration(Take(s, |s.inBuffer| - PrefixAtEnd(s.inBuffer)), true)
      else
        var s1 := Take(s, k);
        Iteration(if s1.raised then s1 else FoundTerminator(s1.(inBuffer := s.inBuffer[k + |DELIMITER|..])), false)
  }

  /** asynchat's loop over its buffer. */
  function Drain(s: Stream): Stream
    decreases |s.inBuffer|
  {
    if s.inBuffer == [] || s.raised then s
    else
      var Iteration(s1, last) := Once(s);
      if last || s1.raised then s1 else Drain(s1)
  }

  /** `handle_read`: `recv` hands over all that `set_data` left. */
  function HandleRead(s: Stream): Stream {
    Drain(s.(inBuffer := s.inBuffer + Concat(s.data), data := []))
  }

  /** `set_data` for a DATA frame, whose flow-controlled length counts its padding. */
  function SetData(s: Stream, octets: seq<Octet>, size: nat): Stream {
    HandleRead(s.(data := s.data + [octets], rbytes := s.rbytes + size,
                  dataSize := s.dataSize + size, chunks := s.chunks + [size]))
  }

  /** The StreamEnded event. */
  function End(s: Stream): Stream {
    if !s.collecting then s
    else
      var s1 := HandleRead(s);
      if s1.raised then s1 else FoundTerminator(s1)
  }

  const NEW_STREAM := Stream(Unlimited, [], [], [], 0, 0, false, None, 0, 0, [], [], false, false)

  /** `make_collector` and `start_collect`. A length above the limit is refused with 413; without a
      usable length the limit goes to the collector. A terminator of -1 stands for None, and asynchat
      raises ValueError for any other negative one. */
  function Open(contentLength: Option<int>, limit: nat): Stream {
    var s := NEW_STREAM.(contentLength := contentLength);
    if contentLength.None? then s.(collecting := true, maxLength := limit)
    else if contentLength.value > limit then s.(rejected := true)
    else
      var s1, n := s.(collecting := true), contentLength.value;
      if n == 0 then FoundTerminator(s1)
      else if n == -1 then s1
      else if n < -1 then s1.(raised := true)
      else s1.(terminator := Count(n))
  }

  /** DATA frames, each with its flow-controlled length. An exception ends the run. */
  function Deliver(s: Stream, frames: seq<DataFrame>): Stream {
    if frames == [] then s else
      var s1, last := Deliver(s, frames[..|frames| - 1]), frames[|frames| - 1];
      if s1.raised then s1 else SetData(s1, last.payload, last.size)
  }

  function Payload(frames: seq<DataFrame>): seq<Octet> {
    if frames == [] then [] else Payload(frames[..|frames| - 1]) + frames[|frames| - 1].payload
  }

  /** The whole life of a stream. */
  function Receive(contentLength: Option<int>, limit: nat, frames: seq<DataFrame>): Stream {
    var s := Deliver(Open(contentLength, limit), frames);
    if s.raised then s else End(s)
  }

  // ----- after the body ----------------------------------------------------------------------------

  /** Without a collector nothing reaches anybody any more. */
  ghost predicate Inert(s: Stream) {
    !s.collecting && !s.raised && s.data == [] && !s.terminator.Count?
  }

  /** All that counts of a stream is as it was. */
  ghost predicate SameOutcome(s: Stream, s': Stream) {
    && s'.continued == s.continued && s'.rejected == s.rejected && s'.rbytes == s.rbytes && s'.size == s.size
    && s'.dataSize == s.dataSize && s'.buffer == s.buffer && s'.contentLength == s.contentLength
    && s'.maxLength == s.maxLength
  }

  lemma {:induction false} InertDrains(s: Stream)
    requires Inert(s)
    ensures Inert(Drain(s)) && SameOutcome(s, Drain(s))
    decreases |s.inBuffer|
  {
    if s.inBuffer != [] && s.terminator.Delimiter? {
      var k := FindDelimiter(s.inBuffer);
      if k < |s.inBuffer| {
        InertDrains(s.(inBuffer := s.inBuffer[k + |DELIMITER|..]));
      }
    }
  }

  // ----- conservation -----------------------------------------------------------------------------

  predicate TooLarge(contentLength: Option<int>, limit: nat, octets: seq<Octet>) {
    contentLength.None? && limit != 0 && |octets| > limit
  }

  /** The stream has a collector: its length is missing, -1, or within the limit. */
  predicate Accepted(contentLength: Option<int>, limit: nat) {
    contentLength.Some? ==> -1 <= contentLength.value <= limit
  }

  /** How much of the payload of a request with that Content-Length reaches the application. */
  function Admitted(contentLength: Option<int>, octets: seq<Octet>): seq<Octet>
    requires contentLength.Some? ==> contentLength.value >= -1
  {
    if contentLength.None? || contentLength.value == -1 then octets else octets[..Min(contentLength.value, |octets|)]
  }

  /** After some frames with these octets: the collector is still at work, or has its body. */
  ghost predicate Collecting(s: Stream, cl: Option<int>, limit: nat, octets: seq<Octet>) {
    && Accepted(cl, limit) && !TooLarge(cl, limit, octets)
    && s.data == [] && !s.raised && !s.rejected && s.contentLength == cl
    && s.maxLength == (if cl.None? then limit else 0)
    && s.size == |Admitted(cl, octets)| && s.rbytes == s.dataSize + s.size
    && if cl.Some? && 0 <= cl.value <= |octets| then Inert(s) && s.continued == [BodyOf(octets[..cl.value])]
       else s.inBuffer == [] && s.collecting && s.continued == [] && s.buffer == octets
            && s.terminator == if cl.Some? && cl.value > 0 then Count(cl.value - |octets|) else Unlimited
  }

  lemma DataIsCollected(s: Stream, cl: Option<int>, limit: nat, octets: seq<Octet>, more: seq<Octet>, size: nat)
    requires Collecting(s, cl, limit, octets)
    ensures var s' := SetData(s, more, size);
            if TooLarge(cl, limit, octets + more) then s'.raised && s'.continued == []
            else Collecting(s', cl, limit, octets + more)
  {
    var s1 := Received(s, more, size);
    SetDataDrains(s, more, size);
    hide SetData, Drain;
    if cl.Some? && 0 <= cl.value <= |octets| {
      InertStays(s, s1, cl, limit, octets, more);
    } else {
      assert s1.inBuffer == more && s1.(inBuffer := []) == Received(s, [], size).(inBuffer := []);
      IsDrained(s1, cl, limit, octets);
    }
  }

  /** The stream before its buffer is read. */
  function Received(s: Stream, more: seq<Octet>, size: nat): Stream {
    s.(inBuffer := s.inBuffer + more, rbytes := s.rbytes + size,
       dataSize := s.dataSize + size, chunks := s.chunks + [size])
  }

  lemma SetDataDrains(s: Stream, more: seq<Octet>, size: nat)
    requires s.data == []
    ensures SetData(s, more, size) == Drain(Received(s, more, size))
  {
    hide Drain;
    ConcatOne(more);
    assert s.data + [more] == [more];
  }

  lemma InertStays(s: Stream, s1: Stream, cl: Option<int>, limit: nat, octets: seq<Octet>, more: seq<Octet>)
    requires Collecting(s, cl, limit, octets) && cl.Some? && 0 <= cl.value <= |octets|
    requires exists size :: s1 == Received(s, more, size)
    ensures Collecting(Drain(s1), cl, limit, octets + more)
  {
    InertDrains(s1);
    hide Drain;
    assert (octets + more)[..cl.value] == octets[..cl.value];
  }

  lemma IsDrained(s: Stream, cl: Option<int>, limit: nat, octets: seq<Octet>)
    requires Collecting(s.(inBuffer := []), cl, limit, octets) && s.collecting
    ensures var s', all := Drain(s), octets + s.inBuffer;
            if TooLarge(cl, limit, all) then s'.raised && s'.continued == []
            else Collecting(s', cl, limit, all)
  {
    var all := octets + s.inBuffer;
    if s.inBuffer == [] {
      assert all == octets;
    } else if cl.Some? && 0 < cl.value <= |all| {
      LengthIsReached(s, cl.value, limit, octets);
    } else {
      AllIsTaken(s, cl, limit, octets);
    }
  }

  lemma AllIsTaken(s: Stream, cl: Option<int>, limit: nat, octets: seq<Octet>)
    requires Collecting(s.(inBuffer := []), cl, limit, octets) && s.collecting && s.inBuffer != []
    requires cl.Some? ==> cl.value == -1 || |octets| + |s.inBuffer| < cl.value
    ensures var s', all := Drain(s), octets + s.inBuffer;
            if TooLarge(cl, limit, all) then s'.raised && s'.continued == []
            else Collecting(s', cl, limit, all)
  {
    var all, left := octets + s.inBuffer,
      if cl.Some? && cl.value > 0 then Count(cl.value - |octets| - |s.inBuffer|) else Unlimited;
    AllIsAdmitted(cl, octets);
    AllIsAdmitted(cl, all);
    assert s.terminator == (if cl.Some? && cl.value > 0 then Count(cl.value - |octets|) else Unlimited);
    hide Inert, Admitted;
    AllIsCollected(s, left);
    DrainsAtOnce(s);
    hide Once, Drain;
  }

  lemma DrainsAtOnce(s: Stream)
    requires s.inBuffer != [] && !s.raised && Once(s).last
    ensures Drain(s) == Once(s).stream
  {
    hide Once;
  }

  /** One iteration takes the whole buffer. */
  lemma AllIsCollected(s: Stream, left: Terminator)
    requires s.collecting && !s.raised && s.inBuffer != []
    requires left == s.terminator == Unlimited ||
             (left.Count? && left.n > 0 && s.terminator == Count(left.n + |s.inBuffer|))
    ensures Once(s).last
    ensures var s', size := Once(s).stream, s.size + |s.inBuffer|;
            if s.maxLength != 0 && size > s.maxLength then s'.raised && s'.continued == s.continued
            else s' == s.(inBuffer := [], buffer := s.buffer + s.inBuffer, size := size,
                          rbytes := s.rbytes + |s.inBuffer|, terminator := left)
  {
    hide FindDelimiter, PrefixAtEnd, FoundTerminator;
    assert s.inBuffer[..|s.inBuffer|] == s.inBuffer;
  }

  lemma AllIsAdmitted(cl: Option<int>, octets: seq<Octet>)
    requires cl.Some? ==> cl.value == -1 || |octets| <= cl.value
    ensures Admitted(cl, octets) == octets
  {
  }

  lemma LengthIsReached(s: Stream, cl: nat, limit: nat, octets: seq<Octet>)
    requires Collecting(s.(inBuffer := []), Some(cl), limit, octets) && s.collecting
    requires |octets| < cl <= |octets + s.inBuffer|
    ensures Collecting(Drain(s), Some(cl), limit, octets + s.inBuffer)
  {
    var all, k := octets + s.inBuffer, cl - |octets|;
    assert all[..cl] == octets + s.inBuffer[..k];
    var at := FoundTerminator(Take(s, k).(terminator := Count(0)));
    assert Once(s) == Iteration(at, false) && Drain(s) == Drain(at);
    hide Once, Drain, FindDelimiter, PrefixAtEnd;
    InertDrains(at);
    assert at.continued == [BodyOf(all[..cl])] && at.size == cl && at.rbytes == at.dataSize + cl;
    hide Take, FoundTerminator;
  }

  /** Where a stream starts. */
  lemma StartsCollecting(cl: Option<int>, limit: nat)
    requires Accepted(cl, limit)
    ensures Collecting(Open(cl, limit), cl, limit, [])
  {
    if cl == Some(0) {
      var none: seq<Octet> := [];
      assert none[..0] == [];
    }
  }

  lemma {:induction false} FramesAreCollected(cl: Option<int>, limit: nat, frames: seq<DataFrame>)
    requires Accepted(cl, limit)
    ensures var s := Deliver(Open(cl, limit), frames);
            if TooLarge(cl, limit, Payload(frames)) then s.raised && s.continued == []
            else Collecting(s, cl, limit, Payload(frames))
  {
    if frames == [] {
      StartsCollecting(cl, limit);
    } else {
      var front, last := frames[..|frames| - 1], frames[|frames| - 1];
      FramesAreCollected(cl, limit, front);
      var s := Deliver(Open(cl, limit), front);
      assert TooLarge(cl, limit, Payload(front)) ==> TooLarge(cl, limit, Payload(frames));
      if !TooLarge(cl, limit, Payload(front)) {
        assert !s.raised;
        hide SetData, Collecting;
        DataIsCollected(s, cl, limit, Payload(front), last.payload, last.size);
      }
    }
  }

  /** A request that was answered with 413 keeps dropping its body. */
  lemma {:induction false} RejectedStaysSo(cl: Option<int>, limit: nat, frames: seq<DataFrame>)
    requires cl.Some? && cl.value > limit
    ensures var s := Deliver(Open(cl, limit), frames); Inert(s) && s.rejected && s.continued == []
  {
    if frames != [] {
      var front, last := frames[..|frames| - 1], frames[|frames| - 1];
      RejectedStaysSo(cl, limit, front);
      var s := Deliver(Open(cl, limit), front);
      SetDataDrains(s, last.payload, last.size);
      hide SetData;
      InertDrains(Received(s, last.payload, last.size));
    }
  }

  lemma {:induction false} RaisedStaysSo(s: Stream, frames: seq<DataFrame>)
    requires s.raised
    ensures Deliver(s, frames) == s
  {
    if frames != [] {
      RaisedStaysSo(s, frames[..|frames| - 1]);
    }
  }

  /** The lengths of DATA frames, padding included. */
  function Sizes(frames: seq<DataFrame>): seq<nat> {
    if frames == [] then [] else Sizes(frames[..|frames| - 1]) + [frames[|frames| - 1].size]
  }

  function Total(frames: seq<DataFrame>): nat {
    if frames == [] then 0 else Total(frames[..|frames| - 1]) + frames[|frames| - 1].size
  }

  /** Reading does not touch what counts the frames. */
  lemma {:induction false} DrainCounts(s: Stream)
    ensures var s' := Drain(s);
            && s'.chunks == s.chunks && s'.dataSize == s.dataSize
            && (!s.collecting ==> !s'.collecting && s'.rbytes == s.rbytes)
    decreases |s.inBuffer|
  {
    if s.inBuffer != [] && !s.raised {
      var r := Once(s);
      OnceCounts(s);
      if !r.last && !r.stream.raised {
        hide Once;
        DrainCounts(r.stream);
      }
    }
  }

  predicate SameCounts(s: Stream, s': Stream) {
    && s'.chunks == s.chunks && s'.dataSize == s.dataSize
    && (!s.collecting ==> !s'.collecting && s'.rbytes == s.rbytes)
  }

  lemma TakeCounts(s: Stream, k: nat)
    requires k <= |s.inBuffer|
    ensures SameCounts(s, Take(s, k))
  {
  }

  lemma OnceCounts(s: Stream)
    requires s.inBuffer != []
    ensures SameCounts(s, Once(s).stream)
  {
    hide FindDelimiter, PrefixAtEnd, Take;
    var all := |s.inBuffer|;
    TakeCounts(s, all);
    match s.terminator
    case Count(n) => if n <= all { TakeCounts(s, n); }
    case Delimiter =>
      var k := FindDelimiter(s.inBuffer);
      TakeCounts(s, k);
      TakeCounts(s, all - PrefixAtEnd(s.inBuffer));
    case Unlimited =>
  }

  lemma SetDataCounts(s: Stream, octets: seq<Octet>, size: nat)
    ensures var s' := SetData(s, octets, size);
            && s'.chunks == s.chunks + [size] && s'.dataSize == s.dataSize + size
            && (!s.collecting ==> !s'.collecting && s'.rbytes == s.rbytes + size)
  {
    hide Drain;
    var s1 := s.(data := s.data + [octets], rbytes := s.rbytes + size,
                 dataSize := s.dataSize + size, chunks := s.chunks + [size]);
    DrainCounts(s1.(inBuffer := s1.inBuffer + Concat(s1.data), data := []));
  }

  /** Every frame is counted with its padding, as long as nothing is raised. */
  lemma {:induction false} FramesAreCounted(cl: Option<int>, limit: nat, frames: seq<DataFrame>)
    ensures var s := Deliver(Open(cl, limit), frames);
            && (!s.raised ==> s.chunks == Sizes(frames) && s.dataSize == Total(frames))
            && (cl.Some? && cl.value > limit ==> !s.collecting && (!s.raised ==> s.rbytes == Total(frames)))
  {
    if frames != [] {
      var front, last := frames[..|frames| - 1], frames[|frames| - 1];
      FramesAreCounted(cl, limit, front);
      SetDataCounts(Deliver(Open(cl, limit), front), last.payload, last.size);
      hide SetData, Open;
    }
  }

  lemma EndCounts(s: Stream)
    ensures End(s).chunks == s.chunks && End(s).dataSize == s.dataSize
  {
    hide Drain;
    DrainCounts(s.(inBuffer := s.inBuffer + Concat(s.data), data := []));
  }

  lemma NothingToRead(s: Stream)
    requires s.data == [] && s.inBuffer == []
    ensures HandleRead(s) == s
  {
    assert Concat([]) == [] && s.inBuffer + [] == s.inBuffer;
  }

  /** For every limit and every split of the body into DATA frames, whatever their padding. A length
      above the limit is refused, one below -1 raises, and so does a body without a length once it is
      over the limit; then the application is not called. Otherwise it is called exactly once, with
      the admitted octets in order. The request counts them on top of the frames that brought them. */
  lemma BodyIsCollected(cl: Option<int>, limit: nat, frames: seq<DataFrame>)
    ensures var s, octets := Receive(cl, limit, frames), Payload(frames);
            if cl.Some? && cl.value > limit then
              s.rejected && !s.raised && s.continued == [] && s.rbytes == s.dataSize == Total(frames)
            else if cl.Some? && cl.value < -1 then s.raised && s.continued == []
            else if TooLarge(cl, limit, octets) then s.raised && s.continued == []
            else
              && !s.raised && !s.rejected && !s.collecting
              && s.continued == [if Admitted(cl, octets) == [] then None else Some(Admitted(cl, octets))]
              && s.rbytes == Total(frames) + |Admitted(cl, octets)|
              && s.chunks == Sizes(frames) && s.dataSize == Total(frames)
  {
    FramesAreCounted(cl, limit, frames);
    EndCounts(Deliver(Open(cl, limit), frames));
    if cl.Some? && cl.value > limit {
      RejectedStaysSo(cl, limit, frames);
      hide Deliver, Open, Inert;
    } else if cl.Some? && cl.value < -1 {
      RaisedStaysSo(Open(cl, limit), frames);
    } else {
      FramesAreCollected(cl, limit, frames);
      var s, octets := Deliver(Open(cl, limit), frames), Payload(frames);
      hide Deliver, Payload, Open;
      if !s.raised && s.collecting {
        NothingToRead(s);
        assert octets[..|octets|] == octets;
      }
    }
  }

  /** The application gets the whole body, once, exactly when the Content-Length is missing and the
      limit is kept, or is -1, or is within the limit and covers the body. */
  lemma BodyIsWholeIff(cl: Option<int>, limit: nat, frames: seq<DataFrame>)
    ensures var octets := Payload(frames);
            Receive(cl, limit, frames).continued == [if octets == [] then None else Some(octets)] <==>
            if cl.None? then limit == 0 || |octets| <= limit
            else cl.value == -1 || (0 <= cl.value <= limit && |octets| <= cl.value)
  {
    var octets := Payload(frames);
    BodyIsCollected(cl, limit, frames);
    if cl.Some? && cl.value >= 0 {
      assert |octets| <= cl.value ==> octets[..|octets|] == octets;
    }
    hide Receive, Payload;
  }

  // ----- from the request's headers ---------------------------------------------------------------------

  /** The length the collector finds: `handle_request` appends a length of -1 when DATA frames follow
      a request without a positive length, and the collector reads the first Content-Length. */
  function CollectorLength(header: Option<int>, hasData: bool): Option<int> {
    if header.None? && hasData then Some(-1) else header
  }

  /** With a Content-Length that is the length of the body, as h2 demands, or with none: the application
      gets the whole body, once, if and only if no length was announced or it is within the limit.
      Else it gets nothing. Without a length the limit does not apply: the length -1 passes it. */
  lemma BodyIsConservedIff(header: Option<int>, hasData: bool, limit: nat, frames: seq<DataFrame>)
    requires !hasData ==> frames == []
    requires header.Some? ==> header.value == |Payload(frames)|
    ensures var s := Receive(CollectorLength(header, hasData), limit, frames);
            var body := if Payload(frames) == [] then None else Some(Payload(frames));
            && (s.continued == [body] <==> header.None? || header.value <= limit)
            && (s.continued == [body] || s.continued == [])
  {
    var cl := CollectorLength(header, hasData);
    BodyIsCollected(cl, limit, frames);
    if header.Some? {
      assert Payload(frames)[..|Payload(frames)|] == Payload(frames);
    }
  }

  /** Three octets and a limit of one: announced they are refused, unannounced they are delivered. */
  lemma LimitIsEvaded()
    ensures var frames: seq<DataFrame> := [DataFrame([1, 2, 3], 3)];
            && Receive(CollectorLength(Some(3), true), 1, frames).continued == []
            && Receive(CollectorLength(None, true), 1, frames).continued == [Some([1, 2, 3])]
  {
    var frames: seq<DataFrame> := [DataFrame([1, 2, 3], 3)];
    assert frames[..0] == [] && Payload([]) == [] && [] + [1, 2, 3] == [1, 2, 3];
    assert Payload(frames) == [1, 2, 3];
    hide Receive, Payload;
    BodyIsConservedIff(Some(3), true, 1, frames);
    BodyIsConservedIff(None, true, 1, frames);
  }
}
