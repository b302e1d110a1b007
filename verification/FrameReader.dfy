/** The inbound framing machine of `http2_connection_handler`: octets arrive in reads of any size,
    asynchat counts them against a numeric terminator, and frames leave for h2. */
module FrameReader {
  import opened Octets
  import opened Wrappers

  // ----- frames as octets: section 4.1 of RFC 7540 ------------------------------------------------

  datatype FrameHeader = FrameHeader(length: nat, kind: Octet, flags: Octet, streamId: nat)

  predicate Encodable(h: FrameHeader) {
    h.length < 0x100_0000 && h.streamId < 0x8000_0000
  }

  const HEADER_SIZE := 9

  function Word(octets: seq<Octet>): nat {
    if octets == [] then 0 else Word(octets[..|octets| - 1]) * 256 + octets[|octets| - 1]
  }

  function WordOctets(n: nat, size: nat): (r: seq<Octet>)
    ensures |r| == size
  {
    if size == 0 then [] else WordOctets(n / 256, size - 1) + [n % 256]
  }

  function EncodeHeader(h: FrameHeader): (r: seq<Octet>)
    ensures |r| == HEADER_SIZE
  {
    WordOctets(h.length, 3) + [h.kind, h.flags] + WordOctets(h.streamId, 4)
  }

  /** `Frame.parse_frame_header` of hyperframe: the reserved bit of the stream id is masked out. */
  function DecodeHeader(octets: seq<Octet>): FrameHeader
    requires |octets| == HEADER_SIZE
  {
    FrameHeader(Word(octets[..3]), octets[3], octets[4], Word(octets[5..]) % 0x8000_0000)
  }

  datatype RawFrame = RawFrame(header: FrameHeader, payload: seq<Octet>)

  function Serialize(frames: seq<RawFrame>): seq<Octet> {
    if frames == [] then [] else EncodeHeader(frames[0].header) + frames[0].payload + Serialize(frames[1..])
  }

  /** The frames that lie complete at the beginning of an octet string. */
  function ParseFrames(octets: seq<Octet>): seq<RawFrame> {
    if |octets| < HEADER_SIZE then []
    else
      var h := DecodeHeader(octets[..HEADER_SIZE]);
      var rest := octets[HEADER_SIZE..];
      if |rest| < h.length then []
      else [RawFrame(h, rest[..h.length])] + ParseFrames(rest[h.length..])
  }

  lemma {:induction false} WordRoundTrip(n: nat, size: nat)
    requires n < Power256(size)
    ensures Word(WordOctets(n, size)) == n
  {
    if size > 0 {
      WordRoundTrip(n / 256, size - 1);
      var r := WordOctets(n, size);
      assert r[..|r| - 1] == WordOctets(n / 256, size - 1);
    }
  }

  function Power256(size: nat): nat {
    if size == 0 then 1 else 256 * Power256(size - 1)
  }

  lemma HeaderRoundTrip(h: FrameHeader)
    requires Encodable(h)
    ensures DecodeHeader(EncodeHeader(h)) == h
  {
    var r := EncodeHeader(h);
    assert Power256(3) == 0x100_0000 && Power256(4) == 0x1_0000_0000;
    WordRoundTrip(h.length, 3);
    WordRoundTrip(h.streamId, 4);
    assert r[..3] == WordOctets(h.length, 3) && r[5..] == WordOctets(h.streamId, 4);
  }

  /** The layout of section 4.1 of RFC 7540: 24 bits of length, type, flags, a reserved bit and 31 bits of
      stream identifier, most significant octet first. */
  lemma HeaderIsLaidOut(o: seq<Octet>)
    requires |o| == 9
    ensures DecodeHeader(o) ==
            FrameHeader(o[0] as int * 0x1_0000 + o[1] as int * 0x100 + o[2], o[3], o[4],
                        o[5] as int % 128 * 0x100_0000 + o[6] as int * 0x1_0000 + o[7] as int * 0x100 + o[8])
  {
    WordOfThree(o[..3]);
    WordOfFour(o[5..]);
    hide Word;
    var low := o[6] as int * 0x1_0000 + o[7] as int * 0x100 + o[8];
    assert o[5] == o[5] as int / 128 * 128 + o[5] as int % 128;
    assert Word(o[5..]) == o[5] as int / 128 * 0x8000_0000 + (o[5] as int % 128 * 0x100_0000 + low);
  }

  lemma WordOfThree(o: seq<Octet>)
    requires |o| == 3
    ensures Word(o) == o[0] as int * 0x1_0000 + o[1] as int * 0x100 + o[2]
  {
    assert o[..2][..1] == [o[0]] && [o[0]][..0] == [];
    assert Word([o[0]]) == o[0] && Word(o[..2]) == o[0] as int * 256 + o[1];
  }

  lemma WordOfFour(o: seq<Octet>)
    requires |o| == 4
    ensures Word(o) == o[0] as int * 0x100_0000 + o[1] as int * 0x1_0000 + o[2] as int * 0x100 + o[3]
  {
    WordOfThree(o[..3]);
  }

  /** A frame at the beginning of an octet string is parsed, whatever follows. */
  lemma FrameIsParsed(h: FrameHeader, head: seq<Octet>, payload: seq<Octet>, rest: seq<Octet>)
    requires |head| == HEADER_SIZE && DecodeHeader(head) == h && h.length == |payload|
    ensures ParseFrames(head + payload + rest) == [RawFrame(h, payload)] + ParseFrames(rest)
  {
    hide DecodeHeader;
    var octets := head + payload + rest;
    assert octets[..HEADER_SIZE] == head;
    var after := octets[HEADER_SIZE..];
    assert after[..h.length] == payload && after[h.length..] == rest;
  }

  /** Parsing inverts serialisation, and leaves an incomplete frame behind it alone. */
  lemma {:induction false} ParseInvertsSerialize(frames: seq<RawFrame>, tail: seq<Octet>)
    requires forall f :: f in frames ==> Encodable(f.header) && f.header.length == |f.payload|
    requires ParseFrames(tail) == []
    ensures ParseFrames(Serialize(frames) + tail) == frames
  {
    hide ParseFrames, DecodeHeader, EncodeHeader, Encodable;
    if frames == [] {
      assert Serialize(frames) + tail == tail;
    } else {
      var f, rest := frames[0], Serialize(frames[1..]) + tail;
      assert f in frames && forall x :: x in frames[1..] ==> x in frames;
      ParseInvertsSerialize(frames[1..], tail);
      HeaderRoundTrip(f.header);
      FrameIsParsed(f.header, EncodeHeader(f.header), f.payload, rest);
      assert Serialize(frames) + tail == EncodeHeader(f.header) + f.payload + rest;
    }
  }

  // ----- the machine ------------------------------------------------------------------------------------

  /** `Misframed` is the InvalidFrameError of a header of the wrong size, `NoRequest` the KeyError of a
      body for a stream that is not registered, `NotPreface` the ProtocolError of a connection that
      does not start with the preface, and `NoHeader` the one of a terminator without octets. */
  datatype Error = NoError | NotPreface | NoHeader | Misframed | NoRequest

  /** `terminator` counts the octets still to come, 0 being None; `version11` says that the request
      still has version "1.1"; `buf` and `rfile` collect headers and payloads; `frames` went to h2
      and `bodies` to the request of stream 1, which is registered when `hasRequest`. */
  datatype Framer = Framer(
    terminator: nat,
    version11: bool,
    gotPreamble: bool,
    dataLength: nat,
    buf: seq<Octet>,
    rfile: seq<Octet>,
    current: Option<FrameHeader>,
    frames: seq<RawFrame>,
    bodies: seq<seq<Octet>>,
    hasRequest: bool,
    error: Error)

  /** "SM\r\n\r\n", the end of the connection preface of section 3.5 of RFC 7540. */
  const PREFACE_END: seq<Octet> := [83, 77, 13, 10, 13, 10]

  predicate IsPreface(octets: seq<Octet>) {
    |octets| >= |PREFACE_END| && octets[|octets| - |PREFACE_END|..] == PREFACE_END
  }

  /** What is accepted of the 24 octets of a preface, or of its last six: it ends in SM CR LF CR LF. */
  lemma PrefaceIsAcceptedIff(octets: seq<Octet>)
    requires |octets| == 6 || |octets| == 24
    ensures IsPreface(octets) <==> octets[|octets| - 6..] == [83, 77, 13, 10, 13, 10]
  {
  }

  function Collect(s: Framer, data: seq<Octet>): Framer {
    if s.dataLength > 0 then s.(rfile := s.rfile + data) else s.(buf := s.buf + data)
  }

  function AtTerminator(s0: Framer): Framer {
    var buf, s := s0.buf, s0.(buf := []);
    if s.version11 && s.dataLength > 0 then
      if !s.hasRequest then s.(version11 := false, error := NoRequest)
      else s.(version11 := false, bodies := s.bodies + [s.rfile], dataLength := 0, rfile := [], terminator := 24)
    else if !s.gotPreamble then
      if !IsPreface(buf) then s.(error := NotPreface) else s.(gotPreamble := true, terminator := 9)
    else if s.dataLength > 0 then
      var frames := if s.current.Some? then s.frames + [RawFrame(s.current.value, s.rfile)] else s.frames;
      s.(frames := frames, current := None, dataLength := 0, rfile := [], terminator := 9)
    else if buf != [] then
      if |buf| != HEADER_SIZE then s.(error := Misframed)
      else
        var h := DecodeHeader(buf);
        var frames := if h.length == 0 then s.frames + [RawFrame(h, [])] else s.frames;
        s.(current := Some(h), dataLength := h.length, frames := frames,
           terminator := if h.length == 0 then 9 else h.length)
    else s.(error := NoHeader)
  }

  /** asynchat's `handle_read` on the octets of one read, for a numeric terminator. */
  function Feed(s: Framer, data: seq<Octet>): Framer
    decreases |data|
  {
    if data == [] || s.error != NoError then s
    else if s.terminator == 0 then Collect(s, data)
    else if |data| < s.terminator then Collect(s, data).(terminator := s.terminator - |data|)
    else Feed(AtTerminator(Collect(s, data[..s.terminator]).(terminator := 0)), data[s.terminator..])
  }

  function FeedAll(s: Framer, parts: seq<seq<Octet>>): Framer {
    if parts == [] then s else Feed(FeedAll(s, parts[..|parts| - 1]), parts[|parts| - 1])
  }

  // ----- how a connection starts --------------------------------------------------------------------------

  /** Prior knowledge: "PRI * HTTP/2.0" was read as a request, the rest of the preface is to come.
      The others answer an h2c upgrade: of a request that takes no body, which has set the version to
      2.0, or of one with a body of `length` octets. With `length` 0 nothing sets the version. */
  datatype Start =
    | PriorKnowledge
    | GetUpgrade
    | PostUpgrade(length: nat)

  function Begin(start: Start, hasRequest: bool): Framer {
    var s := Framer(24, false, false, 0, [], [], None, [], [], hasRequest, NoError);
    match start
    case PriorKnowledge => s.(terminator := 6)
    case GetUpgrade => s
    case PostUpgrade(n) =>
      if n == 0 then s.(version11 := true) else s.(version11 := true, terminator := n, dataLength := n)
  }

  lemma FeedAtTerminator(s: Framer, octets: seq<Octet>)
    requires 0 < s.terminator <= |octets| && s.error == NoError
    ensures Feed(s, octets) ==
            Feed(AtTerminator(Collect(s, octets[..s.terminator]).(terminator := 0)), octets[s.terminator..])
  {
  }

  // ----- framing does not depend on the reads ----------------------------------------------------------------

  lemma CollectInTurn(s: Framer, a: seq<Octet>, b: seq<Octet>)
    ensures Collect(Collect(s, a), b) == Collect(s, a + b)
  {
    assert s.buf + a + b == s.buf + (a + b);
    assert s.rfile + a + b == s.rfile + (a + b);
  }

  lemma ShortRead(s: Framer, a: seq<Octet>, b: seq<Octet>)
    requires a != [] && b != [] && |a| < s.terminator && s.error == NoError
    ensures Feed(Feed(s, a), b) == Feed(s, a + b)
  {
    hide AtTerminator;
    var n, k := s.terminator, s.terminator - |a|;
    if |b| < k {
      CollectInTurn(s, a, b);
    } else {
      CollectInTurn(s, a, b[..k]);
      assert (a + b)[..n] == a + b[..k] && (a + b)[n..] == b[k..];
      FeedAtTerminator(s, a + b);
      FeedAtTerminator(Collect(s, a).(terminator := k), b);
    }
  }

  /** Two reads are as good as one. */
  lemma {:induction false} FeedInTurn(s: Framer, a: seq<Octet>, b: seq<Octet>)
    ensures Feed(Feed(s, a), b) == Feed(s, a + b)
    decreases |a|
  {
    hide AtTerminator;
    if a == [] || b == [] || s.error != NoError {
      assert a == [] ==> a + b == b;
      assert b == [] ==> a + b == a;
    } else if s.terminator == 0 {
      CollectInTurn(s, a, b);
    } else if |a| < s.terminator {
      ShortRead(s, a, b);
    } else {
      var n := s.terminator;
      FeedAtTerminator(s, a);
      FeedAtTerminator(s, a + b);
      hide Feed, Collect;
      assert (a + b)[..n] == a[..n] && (a + b)[n..] == a[n..] + b;
      FeedInTurn(AtTerminator(Collect(s, a[..n]).(terminator := 0)), a[n..], b);
    }
  }

  /** For every way of cutting the octets into reads, the machine ends as if they came in one. */
  lemma {:induction false} FramingIsSplitIndependent(s: Framer, parts: seq<seq<Octet>>)
    ensures FeedAll(s, parts) == Feed(s, Concat(parts))
  {
    if parts != [] {
      var front := parts[..|parts| - 1];
      FramingIsSplitIndependent(s, front);
      FeedInTurn(s, Concat(front), parts[|parts| - 1]);
    }
  }

  // ----- what is framed ------------------------------------------------------------------------------------------

  /** Between two frames. */
  predicate BetweenFrames(s: Framer) {
    && s.gotPreamble && s.dataLength == 0 && s.buf == [] && s.rfile == [] && s.terminator == HEADER_SIZE
    && s.error == NoError
  }

  /** The machine after the nine octets of a header. */
  function AfterHeader(s: Framer, h: FrameHeader): Framer {
    if h.length == 0 then s.(current := Some(h), frames := s.frames + [RawFrame(h, [])])
    else s.(current := Some(h), dataLength := h.length, terminator := h.length)
  }

  lemma HeaderEnds(s: Framer, head: seq<Octet>)
    requires BetweenFrames(s) && |head| == HEADER_SIZE
    ensures AtTerminator(Collect(s, head).(terminator := 0)) == AfterHeader(s, DecodeHeader(head))
  {
    hide DecodeHeader, IsPreface;
    assert [] + head == head;
  }

  lemma HeaderIsRead(s: Framer, octets: seq<Octet>)
    requires BetweenFrames(s) && |octets| >= HEADER_SIZE
    ensures Feed(s, octets) == Feed(AfterHeader(s, DecodeHeader(octets[..HEADER_SIZE])), octets[HEADER_SIZE..])
  {
    FeedAtTerminator(s, octets);
    hide DecodeHeader, Feed, Collect, AtTerminator;
    HeaderEnds(s, octets[..HEADER_SIZE]);
  }

  function AfterPayload(s: Framer, h: FrameHeader, payload: seq<Octet>): Framer {
    s.(current := None, frames := s.frames + [RawFrame(h, payload)])
  }

  lemma PayloadEnds(s: Framer, h: FrameHeader, payload: seq<Octet>)
    requires BetweenFrames(s) && !s.version11 && 0 < h.length == |payload|
    ensures AtTerminator(Collect(AfterHeader(s, h), payload).(terminator := 0)) == AfterPayload(s, h, payload)
  {
    hide DecodeHeader, IsPreface;
    assert [] + payload == payload;
  }

  lemma PayloadIsRead(s: Framer, h: FrameHeader, octets: seq<Octet>)
    requires BetweenFrames(s) && !s.version11 && 0 < h.length <= |octets|
    ensures Feed(AfterHeader(s, h), octets) == Feed(AfterPayload(s, h, octets[..h.length]), octets[h.length..])
  {
    FeedAtTerminator(AfterHeader(s, h), octets);
    hide Feed, Collect, AtTerminator;
    PayloadEnds(s, h, octets[..h.length]);
  }

  /** Past the preface, h2 is handed exactly the complete frames, and the machine keeps waiting for
      at least one octet more. */
  lemma {:induction false} FramesAreParsed(s: Framer, octets: seq<Octet>)
    requires BetweenFrames(s) && !s.version11
    ensures var s' := Feed(s, octets);
            && s'.frames == s.frames + ParseFrames(octets) && s'.error == NoError
            && s'.bodies == s.bodies && s'.terminator > 0
    decreases |octets|
  {
    if ParseFrames(octets) == [] {
      NoFrameIsRead(s, octets);
      assert s.frames + [] == s.frames;
    } else {
      var head, rest := octets[..HEADER_SIZE], octets[HEADER_SIZE..];
      var h := DecodeHeader(head);
      var f, tail := RawFrame(h, rest[..h.length]), rest[h.length..];
      assert ParseFrames(octets) == [f] + ParseFrames(tail);
      hide DecodeHeader, Feed, ParseFrames, AfterFrame, AfterHeader;
      HeaderIsRead(s, octets);
      OneFrameIsRead(s, h, rest);
      FramesAreParsed(AfterFrame(s, f), tail);
      hide BetweenFrames;
      Associative(s.frames, [f], ParseFrames(tail));
    }
  }

  /** An incomplete frame is collected. */
  lemma NoFrameIsRead(s: Framer, octets: seq<Octet>)
    requires BetweenFrames(s) && ParseFrames(octets) == []
    ensures var s' := Feed(s, octets);
            s'.frames == s.frames && s'.error == NoError && s'.bodies == s.bodies && s'.terminator > 0
  {
    if |octets| >= HEADER_SIZE {
      var h, rest := DecodeHeader(octets[..HEADER_SIZE]), octets[HEADER_SIZE..];
      HeaderIsRead(s, octets);
      hide AtTerminator, DecodeHeader;
      assert |rest| < h.length;
      hide ParseFrames;
    }
  }

  function AfterFrame(s: Framer, f: RawFrame): Framer {
    if f.header.length == 0 then AfterHeader(s, f.header) else AfterPayload(s, f.header, f.payload)
  }

  lemma OneFrameIsRead(s: Framer, h: FrameHeader, rest: seq<Octet>)
    requires BetweenFrames(s) && !s.version11 && h.length <= |rest|
    ensures var s' := AfterFrame(s, RawFrame(h, rest[..h.length]));
            && BetweenFrames(s') && !s'.version11 && s'.frames == s.frames + [RawFrame(h, rest[..h.length])]
            && s'.bodies == s.bodies
            && Feed(AfterHeader(s, h), rest) == Feed(s', rest[h.length..])
  {
    hide Feed;
    if h.length == 0 {
      assert rest[..0] == [] && rest[0..] == rest;
    } else {
      PayloadIsRead(s, h, rest);
    }
  }

  // ----- whole connections -----------------------------------------------------------------------------------------

  /** What an inbound octet stream means: the body of an upgraded request, the connection preface,
      and frames. The reference the machine is measured against. */
  datatype Inbound = Inbound(bodies: seq<seq<Octet>>, frames: seq<RawFrame>, error: Error)

  function BodyLength(start: Start): nat {
    if start.PostUpgrade? then start.length else 0
  }

  function PrefaceLength(start: Start): nat {
    if start.PriorKnowledge? then 6 else 24
  }

  function Framed(octets: seq<Octet>, preface: nat): Inbound {
    if |octets| < preface then Inbound([], [], NoError)
    else if !IsPreface(octets[..preface]) then Inbound([], [], NotPreface)
    else Inbound([], ParseFrames(octets[preface..]), NoError)
  }

  function Meaning(start: Start, hasRequest: bool, octets: seq<Octet>): Inbound {
    var n, preface := BodyLength(start), PrefaceLength(start);
    if n == 0 then Framed(octets, preface)
    else if |octets| < n then Inbound([], [], NoError)
    else if !hasRequest then Inbound([], [], NoRequest)
    else Framed(octets[n..], preface).(bodies := [octets[..n]])
  }

  predicate Means(s: Framer, m: Inbound) {
    s.bodies == m.bodies && s.frames == m.frames && s.error == m.error && (s.error == NoError ==> s.terminator > 0)
  }

  /** Before the preface. */
  predicate AtPreface(s: Framer) {
    && !s.gotPreamble && s.dataLength == 0 && s.buf == [] && s.rfile == [] && s.terminator > 0 && s.error == NoError
    && s.frames == []
  }

  lemma PrefaceIsRead(s: Framer, octets: seq<Octet>)
    requires AtPreface(s) && |octets| >= s.terminator
    ensures IsPreface(octets[..s.terminator]) ==>
              var s' := s.(gotPreamble := true, terminator := HEADER_SIZE);
              BetweenFrames(s') && Feed(s, octets) == Feed(s', octets[s.terminator..])
    ensures !IsPreface(octets[..s.terminator]) ==>
              Feed(s, octets) == s.(terminator := 0, error := NotPreface)
  {
    FeedAtTerminator(s, octets);
    hide Feed, IsPreface, DecodeHeader;
    var at := Collect(s, octets[..s.terminator]).(terminator := 0);
    assert at.buf == octets[..s.terminator];
    assert !IsPreface(at.buf) ==> AtTerminator(at) == s.(terminator := 0, error := NotPreface);
    FeedAfterError(s.(terminator := 0, error := NotPreface), octets[s.terminator..]);
  }

  lemma FeedAfterError(s: Framer, octets: seq<Octet>)
    requires s.error != NoError
    ensures Feed(s, octets) == s
  {
  }

  lemma FramedIsRead(s: Framer, octets: seq<Octet>)
    requires AtPreface(s) && !s.version11
    ensures Means(Feed(s, octets), Framed(octets, s.terminator).(bodies := s.bodies))
  {
    hide ParseFrames, IsPreface;
    var n := s.terminator;
    if |octets| >= n {
      PrefaceIsRead(s, octets);
      if IsPreface(octets[..n]) {
        FramesAreParsed(s.(gotPreamble := true, terminator := HEADER_SIZE), octets[n..]);
        assert [] + ParseFrames(octets[n..]) == ParseFrames(octets[n..]);
      }
    }
  }

  lemma BodyIsRead(s: Framer, octets: seq<Octet>)
    requires AtPreface(s) && s.version11 && |octets| >= s.terminator
    requires s.bodies == []
    ensures var s1, n := s.(dataLength := s.terminator), s.terminator;
            Feed(s1, octets) ==
            if s.hasRequest then Feed(s.(version11 := false, bodies := [octets[..n]], terminator := 24), octets[n..])
            else s1.(version11 := false, rfile := octets[..n], terminator := 0, error := NoRequest)
  {
    var at := Collect(s.(dataLength := s.terminator), octets[..s.terminator]).(terminator := 0);
    assert at.rfile == octets[..s.terminator];
    assert [] + [octets[..s.terminator]] == [octets[..s.terminator]];
  }

  /** However the octets arrive, what leaves the machine is what they mean: the upgraded request gets
      its body, a wrong preface is refused, and h2 gets the frames. */
  lemma ConnectionIsFramed(start: Start, hasRequest: bool, parts: seq<seq<Octet>>)
    requires start.PostUpgrade? ==> start.length > 0
    ensures Means(FeedAll(Begin(start, hasRequest), parts), Meaning(start, hasRequest, Concat(parts)))
  {
    var s, octets, n := Begin(start, hasRequest), Concat(parts), BodyLength(start);
    FramingIsSplitIndependent(s, parts);
    hide ParseFrames, IsPreface;
    if n == 0 {
      FramedIsRead(s, octets);
    } else if |octets| >= n {
      BodyIsRead(s.(dataLength := 0), octets);
      if hasRequest {
        FramedIsRead(s.(version11 := false, bodies := [octets[..n]], terminator := 24, dataLength := 0), octets[n..]);
      }
    }
  }

  /** What a client still has to write of "PRI * HTTP/2.0\r\n\r\nSM\r\n\r\n", the preface of section 3.5 of
      RFC 7540: all of it, or the part behind what was read as a request. */
  function Preface(start: Start): seq<Octet> {
    if start.PriorKnowledge? then [83, 77, 13, 10, 13, 10]
    else [80, 82, 73, 32, 42, 32, 72, 84, 84, 80, 47, 50, 46, 48, 13, 10, 13, 10, 83, 77, 13, 10, 13, 10]
  }

  lemma PrefaceIsAccepted(start: Start)
    ensures |Preface(start)| == PrefaceLength(start) && IsPreface(Preface(start))
  {
    PrefaceIsAcceptedIff(Preface(start));
  }

  /** A client that writes the body of an upgraded request, if there is one, the preface and frames has
      them all handed on, in any split. */
  lemma WrittenIsRead(start: Start, body: seq<Octet>, frames: seq<RawFrame>, parts: seq<seq<Octet>>)
    requires start.PostUpgrade? ==> body != []
    requires |body| == if start.PostUpgrade? then start.length else 0
    requires forall f :: f in frames ==> Encodable(f.header) && f.header.length == |f.payload|
    requires Concat(parts) == body + Preface(start) + Serialize(frames)
    ensures var s := FeedAll(Begin(start, true), parts);
            s.frames == frames && s.error == NoError && s.bodies == if start.PostUpgrade? then [body] else []
  {
    assert ParseFrames([]) == [] && Serialize(frames) + [] == Serialize(frames);
    PrefaceIsAccepted(start);
    hide FeedAll, Begin, Concat, Serialize, ParseFrames, Encodable, Meaning, IsPreface, Preface;
    ParseInvertsSerialize(frames, []);
    MeaningOfWritten(start, body, Preface(start), Serialize(frames));
    ConnectionIsFramed(start, true, parts);
  }

  lemma MeaningOfWritten(start: Start, body: seq<Octet>, preface: seq<Octet>, rest: seq<Octet>)
    requires |body| == BodyLength(start) && (start.PostUpgrade? ==> body != [])
    requires |preface| == PrefaceLength(start) && IsPreface(preface)
    ensures Meaning(start, true, body + preface + rest) ==
            Inbound(if start.PostUpgrade? then [body] else [], ParseFrames(rest), NoError)
  {
    hide ParseFrames, IsPreface;
    var octets, after := body + preface + rest, preface + rest;
    assert octets[..|body|] == body && octets[|body|..] == after;
    assert after[..|preface|] == preface && after[|preface|..] == rest;
    assert body == [] ==> octets == after;
  }

  /** A terminator that is met without a single octet is an error between two frames. */
  lemma NothingIsNoHeader(s: Framer)
    requires BetweenFrames(s)
    ensures AtTerminator(s) == s.(error := NoHeader)
  {
    hide IsPreface, DecodeHeader;
  }

  // ----- the upgrade of a request without a body ------------------------------------------------------------

  /** The frames before the first that has a payload. */
  function Payloadless(frames: seq<RawFrame>): (r: seq<RawFrame>)
    ensures r <= frames && (forall f :: f in r ==> f.payload == [])
    ensures |r| < |frames| ==> frames[|r|].payload != []
  {
    if frames == [] || frames[0].payload != [] then [] else [frames[0]] + Payloadless(frames[1..])
  }

  lemma PayloadlessCons(f: RawFrame, tail: seq<RawFrame>)
    ensures Payloadless([f] + tail) == if f.payload != [] then [] else [f] + Payloadless(tail)
  {
    assert ([f] + tail)[1..] == tail;
  }

  /** Version "1.1" survives the upgrade: the first payload is taken for the body of the request. */
  lemma PayloadIsMisrouted(s: Framer, h: FrameHeader, octets: seq<Octet>)
    requires BetweenFrames(s) && s.version11 && 0 < h.length <= |octets|
    ensures Feed(AfterHeader(s, h), octets).frames == s.frames
  {
    FeedAtTerminator(AfterHeader(s, h), octets);
    hide Feed;
    PayloadIsTakenForBody(s, h, octets[..h.length]);
    NoFrameFollows(AtTerminator(Collect(AfterHeader(s, h), octets[..h.length]).(terminator := 0)), octets[h.length..]);
  }

  /** The machine expects a preface again, which it had already. */
  predicate Misled(s: Framer) {
    s.error != NoError || (s.gotPreamble && !s.version11 && s.dataLength == 0 && s.buf == [] && s.terminator == 24)
  }

  lemma PayloadIsTakenForBody(s: Framer, h: FrameHeader, payload: seq<Octet>)
    requires BetweenFrames(s) && s.version11 && 0 < h.length == |payload|
    ensures var s' := AtTerminator(Collect(AfterHeader(s, h), payload).(terminator := 0));
            Misled(s') && s'.frames == s.frames && (s.hasRequest ==> s'.bodies == s.bodies + [payload])
  {
    hide IsPreface, DecodeHeader;
    assert [] + payload == payload;
  }

  lemma NoFrameFollows(s: Framer, octets: seq<Octet>)
    requires Misled(s)
    ensures Feed(s, octets).frames == s.frames
  {
    hide IsPreface, DecodeHeader;
    if s.error == NoError && |octets| >= 24 {
      FeedAtTerminator(s, octets);
      var at := Collect(s, octets[..24]).(terminator := 0);
      assert at.buf == octets[..24];
      assert AtTerminator(at).error == Misframed;
      FeedAfterError(AtTerminator(at), octets[24..]);
    }
  }

  lemma {:induction false} FramesAreMisrouted(s: Framer, octets: seq<Octet>)
    requires BetweenFrames(s) && s.version11
    ensures Feed(s, octets).frames == s.frames + Payloadless(ParseFrames(octets))
    decreases |octets|
  {
    if |octets| >= HEADER_SIZE {
      var head, rest := octets[..HEADER_SIZE], octets[HEADER_SIZE..];
      var h := DecodeHeader(head);
      HeaderIsRead(s, octets);
      if |rest| >= h.length {
        hide DecodeHeader, AtTerminator, Feed, Collect, ParseFrames, Payloadless;
        var f, tail := RawFrame(h, rest[..h.length]), rest[h.length..];
        assert octets == head + f.payload + tail;
        FrameIsParsed(h, head, f.payload, tail);
        PayloadlessCons(f, ParseFrames(tail));
        if h.length > 0 {
          PayloadIsMisrouted(s, h, rest);
        } else {
          assert rest[..0] == [] && tail == rest;
          FramesAreMisrouted(AfterHeader(s, h), tail);
          Associative(s.frames, [f], Payloadless(ParseFrames(tail)));
        }
      }
    }
  }

  /** After the h2c upgrade of a request with a body method and an empty body, h2 gets the client's
      frames if and only if none of them has a payload. */
  lemma EmptyPostUpgrade(hasRequest: bool, parts: seq<seq<Octet>>)
    ensures var m := Framed(Concat(parts), 24);
            var s := FeedAll(Begin(PostUpgrade(0), hasRequest), parts);
            && s.frames == Payloadless(m.frames)
            && (s.frames == m.frames <==> forall f :: f in m.frames ==> f.payload == [])
  {
    var s, octets := Begin(PostUpgrade(0), hasRequest), Concat(parts);
    FramingIsSplitIndependent(s, parts);
    hide ParseFrames, IsPreface;
    if |octets| >= 24 {
      PrefaceIsRead(s, octets);
      if IsPreface(octets[..24]) {
        FramesAreMisrouted(s.(gotPreamble := true, terminator := HEADER_SIZE), octets[24..]);
        assert [] + Payloadless(ParseFrames(octets[24..])) == Payloadless(ParseFrames(octets[24..]));
      }
    }
    var m := Framed(octets, 24);
    if |Payloadless(m.frames)| < |m.frames| {
      assert m.frames[|Payloadless(m.frames)|] in m.frames;
    }
  }

  // ----- the object ------------------------------------------------------------------------------------------------

  /** The inbound half of `http2_connection_handler`, with the channel that drives it. */
  class Http2FrameReader {
    var terminator: nat
    var version11: bool
    var gotPreamble: bool
    var dataLength: nat
    var buf: seq<Octet>
    var rfile: seq<Octet>
    var current: Option<FrameHeader>
    var frames: seq<RawFrame>
    var bodies: seq<seq<Octet>>
    var hasRequest: bool
    var error: Error

    ghost function View(): Framer
      reads this
    {
      Framer(terminator, version11, gotPreamble, dataLength, buf, rfile, current, frames, bodies, hasRequest, error)
    }

    constructor (start: Start, hasRequest: bool)
      ensures View() == Begin(start, hasRequest)
    {
      version11, gotPreamble, dataLength := start.PostUpgrade?, false, 0;
      buf, rfile, current, frames, bodies, error := [], [], None, [], [], NoError;
      this.hasRequest := hasRequest;
      terminator := if start.PriorKnowledge? then 6 else 24;
      if start.PostUpgrade? && start.length > 0 {
        terminator, dataLength := start.length, start.length;
      }
    }

    method CollectIncomingData(data: seq<Octet>)
      modifies `rfile, `buf
      ensures View() == Collect(old(View()), data)
    {
      if dataLength != 0 {
        rfile := rfile + data;
      } else {
        buf := buf + data;
      }
    }

    method SetFrameData(data: seq<Octet>)
      modifies `frames
      ensures frames == if current.Some? then old(frames) + [RawFrame(current.value, data)] else old(frames)
    {
      if current.Some? {
        frames := frames + [RawFrame(current.value, data)];
      }
    }

    method FoundTerminator()
      modifies this
      ensures View() == AtTerminator(old(View()))
    {
      hide IsPreface, DecodeHeader;
      var octets := buf;
      buf := [];
      if version11 && dataLength != 0 {
        version11 := false;
        if !hasRequest {
          error := NoRequest;
          return;
        }
        bodies := bodies + [rfile];
        dataLength, rfile, terminator := 0, [], 24;
      } else if !gotPreamble {
        if !IsPreface(octets) {
          error := NotPreface;
          return;
        }
        gotPreamble, terminator := true, 9;
      } else if dataLength != 0 {
        SetFrameData(rfile);
        current, dataLength, rfile, terminator := None, 0, [], 9;
      } else if octets != [] {
        if |octets| != HEADER_SIZE {
          error := Misframed;
          return;
        }
        var header := DecodeHeader(octets);
        current, dataLength := Some(header), header.length;
        if dataLength == 0 {
          SetFrameData([]);
        }
        terminator := if dataLength == 0 then 9 else dataLength;
      } else {
        error := NoHeader;
      }
    }

    /** asynchat's loop over what was read. */
    method HandleRead(data: seq<Octet>)
      modifies this
      ensures View() == Feed(old(View()), data)
    {
      hide AtTerminator, Collect;
      var inBuffer := data;
      while inBuffer != [] && error == NoError
        invariant Feed(View(), inBuffer) == Feed(old(View()), data)
        decreases |inBuffer|
      {
        if terminator == 0 {
          CollectIncomingData(inBuffer);
          inBuffer := [];
        } else if |inBuffer| < terminator {
          ghost var s := View();
          CollectIncomingData(inBuffer);
          terminator := terminator - |inBuffer|;
          inBuffer := [];
        } else {
          var n := terminator;
          CollectIncomingData(inBuffer[..n]);
          inBuffer, terminator := inBuffer[n..], 0;
          FoundTerminator();
        }
      }
    }
  }
}
