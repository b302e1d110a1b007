/** Frames of an HTTP/2 connection, and what a client makes of the frames of one stream. */
module Http2Stream {
  import opened Octets
  import opened Wrappers

  type StreamId = nat

  type HeaderBlock = seq<(string, string)>

  /** What the server hands to the h2 connection object, in order. `Control` stands for the frames
      h2 writes by itself (SETTINGS, PING and WINDOW_UPDATE). */
  datatype Frame =
    | Headers(sid: StreamId, block: HeaderBlock, endStream: bool)
    | Data(sid: StreamId, octets: seq<Octet>, endStream: bool)
    | Reset(sid: StreamId)
    | Goaway
    | Control

  predicate Carries(f: Frame) {
    f.Headers? || f.Data?
  }

  predicate Ends(f: Frame) {
    Carries(f) && f.endStream
  }

  /** A response as the application meant it. Its headers begin with the status, so there are some;
      trailers need a body: `handle_response` asserts it. */
  datatype RawMessage = Message(headers: HeaderBlock, body: Option<seq<Chunk>>, polled: bool, trailers: HeaderBlock)

  const OK_STATUS: HeaderBlock := [(":status", "200")]

  type Message = m: RawMessage | m.headers != [] && (m.trailers != [] ==> m.body.Some?)
    witness Message(OK_STATUS, None, false, [])

  function Content(m: Message): seq<Octet> {
    if m.body.Some? then Flatten(m.body.value) else []
  }

  /** The frames of one stream, in wire order. */
  function Proj(wire: seq<Frame>, sid: StreamId): seq<Frame> {
    if wire == [] then [] else
      var last := wire[|wire| - 1];
      Proj(wire[..|wire| - 1], sid) + (if Carries(last) && last.sid == sid then [last] else [])
  }

  /** A client reassembling one response: section 8.1 of RFC 7540. One HEADERS frame, any number
      of DATA frames, at most one trailing HEADERS frame, and nothing after END_STREAM. */
  datatype Reader =
    | Idle
    | Open(headers: HeaderBlock, got: seq<Octet>)
    | Done(headers: HeaderBlock, got: seq<Octet>, trailers: HeaderBlock)
    | Malformed

  function Accept(r: Reader, f: Frame): Reader {
    match (r, f)
    case (Idle, Headers(_, block, end)) => if end then Done(block, [], []) else Open(block, [])
    case (Open(h, got), Data(_, octets, end)) => if end then Done(h, got + octets, []) else Open(h, got + octets)
    case (Open(h, got), Headers(_, block, true)) => Done(h, got, block)
    case _ => Malformed
  }

  function Read(frames: seq<Frame>): Reader {
    if frames == [] then Idle else Accept(Read(frames[..|frames| - 1]), frames[|frames| - 1])
  }

  /** DATA octets on the wire: all of them, and those of one stream. */
  function DataSent(wire: seq<Frame>): nat {
    if wire == [] then 0 else
      var last := wire[|wire| - 1];
      DataSent(wire[..|wire| - 1]) + (if last.Data? then |last.octets| else 0)
  }

  function DataSentOn(wire: seq<Frame>, sid: StreamId): nat {
    DataSent(Proj(wire, sid))
  }

  lemma {:induction false} ProjAppend(wire: seq<Frame>, fs: seq<Frame>, sid: StreamId)
    ensures Proj(wire + fs, sid) == Proj(wire, sid) + Proj(fs, sid)
  {
    if fs == [] {
      assert wire + fs == wire;
    } else {
      var front := fs[..|fs| - 1];
      assert (wire + fs)[..|wire + fs| - 1] == wire + front;
      ProjAppend(wire, front, sid);
    }
  }

  lemma {:induction false} DataSentAppend(wire: seq<Frame>, fs: seq<Frame>)
    ensures DataSent(wire + fs) == DataSent(wire) + DataSent(fs)
  {
    if fs == [] {
      assert wire + fs == wire;
    } else {
      assert (wire + fs)[..|wire + fs| - 1] == wire + fs[..|fs| - 1];
      DataSentAppend(wire, fs[..|fs| - 1]);
    }
  }

  /** A stream the client can read has END_STREAM on its last frame, when it is complete, and on no other. */
  lemma {:induction false} EndStreamIsLast(frames: seq<Frame>)
    requires !Read(frames).Malformed?
    ensures forall i :: 0 <= i < |frames| ==> (Ends(frames[i]) <==> i == |frames| - 1 && Read(frames).Done?)
  {
    if frames != [] {
      EndStreamIsLast(frames[..|frames| - 1]);
    }
  }

  lemma {:induction false} ProjCarries(wire: seq<Frame>, sid: StreamId)
    ensures forall f :: f in Proj(wire, sid) ==> Carries(f) && f.sid == sid
  {
    if wire != [] {
      ProjCarries(wire[..|wire| - 1], sid);
    }
  }

  lemma {:induction false} ReadCountsData(frames: seq<Frame>)
    requires !Read(frames).Malformed?
    ensures Read(frames).Idle? ==> DataSent(frames) == 0
    ensures !Read(frames).Idle? ==> DataSent(frames) == |Read(frames).got|
  {
    if frames != [] {
      ReadCountsData(frames[..|frames| - 1]);
    }
  }
}
