/** The part of the h2 library the server relies on: an outgoing frame log and the flow-control
    windows the peer granted. Stream state and HPACK are not part of this model. */
module H2Connection {
  import opened Octets
  import opened Http2Stream

  /** What SETTINGS_INITIAL_WINDOW_SIZE can announce: section 6.5.2 of RFC 7540. */
  type WindowSize = n: int | 0 <= n < 0x8000_0000 witness 0

  const INITIAL_WINDOW: WindowSize := 65535

  /** `taken` frames of `wire` were already fetched with `data_to_send`. `net` is, for each stream,
      what WINDOW_UPDATE added to its window less what was sent: SETTINGS changes apply to all
      streams, so the window itself is `initialWindow` plus that (section 6.9.2 of RFC 7540). */
  datatype Conn = Conn(
    wire: seq<Frame>,
    taken: nat,
    connWindow: int,
    initialWindow: WindowSize,
    net: map<StreamId, int>)
  {
    function StreamWindow(sid: StreamId): int {
      initialWindow + NetOf(sid)
    }

    function NetOf(sid: StreamId): int {
      if sid in net then net[sid] else 0
    }

    /** `local_flow_control_window`: what may be sent on the stream now. A SETTINGS change can make the
        window of a stream that has been sent DATA negative: section 6.9.2 of RFC 7540. */
    function Window(sid: StreamId): int {
      Min(connWindow, StreamWindow(sid))
    }

    function Append(f: Frame): Conn {
      var c := this.(wire := wire + [f]);
      if f.Data? then
        c.(connWindow := connWindow - |f.octets|,
           net := net[f.sid := NetOf(f.sid) - |f.octets|])
      else c
    }

    function AppendAll(fs: seq<Frame>): Conn
      decreases |fs|
    {
      if fs == [] then this else Append(fs[0]).AppendAll(fs[1..])
    }

    /** Frames that `data_to_send` would return. */
    function Pending(): seq<Frame> {
      if taken <= |wire| then wire[taken..] else []
    }
  }

  const FRESH_CONN := Conn([], 0, INITIAL_WINDOW, INITIAL_WINDOW, map[])

  lemma {:induction false} AppendAllFacts(c: Conn, fs: seq<Frame>)
    ensures c.AppendAll(fs).wire == c.wire + fs
    ensures c.AppendAll(fs).taken == c.taken
    ensures c.AppendAll(fs).initialWindow == c.initialWindow
    ensures c.AppendAll(fs).connWindow == c.connWindow - DataSent(fs)
    decreases |fs|
  {
    if fs == [] {
      assert c.wire + fs == c.wire;
    } else {
      AppendAllFacts(c.Append(fs[0]), fs[1..]);
      assert c.wire + fs == (c.wire + [fs[0]]) + fs[1..];
      assert fs == [fs[0]] + fs[1..];
      DataSentAppend([fs[0]], fs[1..]);
      assert [fs[0]][..0] == [];
    }
  }

  lemma DataSentOnOne(f: Frame, sid: StreamId)
    ensures DataSentOn([f], sid) == if f.Data? && f.sid == sid then |f.octets| else 0
  {
    assert [f][..0] == [];
    DataSentOne(f);
    var mine := Carries(f) && f.sid == sid;
    assert Proj([f], sid) == if mine then [f] else [];
    hide Proj;
    assert DataSent([]) == 0;
    hide DataSent;
  }

  lemma DataSentOne(f: Frame)
    ensures DataSent([f]) == if f.Data? then |f.octets| else 0
  {
    assert [f][..0] == [];
  }

  lemma DataSentOnAppend(a: seq<Frame>, b: seq<Frame>, sid: StreamId)
    ensures DataSentOn(a + b, sid) == DataSentOn(a, sid) + DataSentOn(b, sid)
  {
    ProjAppend(a, b, sid);
    DataSentAppend(Proj(a, sid), Proj(b, sid));
  }

  lemma {:induction false} AppendAllStream(c: Conn, fs: seq<Frame>, sid: StreamId)
    ensures c.AppendAll(fs).StreamWindow(sid) == c.StreamWindow(sid) - DataSentOn(fs, sid)
    decreases |fs|
  {
    if fs != [] {
      AppendAllStream(c.Append(fs[0]), fs[1..], sid);
      assert fs == [fs[0]] + fs[1..];
      DataSentOnAppend([fs[0]], fs[1..], sid);
      DataSentOnOne(fs[0], sid);
      hide DataSentOn;
    }
  }

  lemma {:induction false} AppendInTurn(c: Conn, a: seq<Frame>, b: seq<Frame>)
    ensures c.AppendAll(a + b) == c.AppendAll(a).AppendAll(b)
    decreases |a|
  {
    if a == [] {
      assert a + b == b;
    } else {
      assert (a + b)[1..] == a[1..] + b;
      AppendInTurn(c.Append(a[0]), a[1..], b);
    }
  }

  lemma AppendOne(c: Conn, f: Frame)
    ensures c.AppendAll([f]) == c.Append(f)
  {
    assert [f][1..] == [];
  }

  /** Every DATA frame is within the windows and within `limit` when its turn comes: sections 4.2 and
      6.9.1 of RFC 7540. */
  predicate Fits(c: Conn, fs: seq<Frame>, limit: int)
    decreases |fs|
  {
    fs == [] ||
    ((fs[0].Data? ==> |fs[0].octets| <= Min(limit, c.Window(fs[0].sid)))
     && Fits(c.Append(fs[0]), fs[1..], limit))
  }

  lemma {:induction false} FitsInTurn(c: Conn, a: seq<Frame>, b: seq<Frame>, limit: int)
    ensures Fits(c, a + b, limit) <==> Fits(c, a, limit) && Fits(c.AppendAll(a), b, limit)
    decreases |a|
  {
    if a == [] {
      assert a + b == b;
    } else {
      assert (a + b)[1..] == a[1..] + b;
      FitsInTurn(c.Append(a[0]), a[1..], b, limit);
    }
  }

  /** Frames that fit never overdraw the connection. */
  lemma {:induction false} FitsKeepsConnWindow(c: Conn, fs: seq<Frame>, limit: int)
    requires Fits(c, fs, limit) && c.connWindow >= 0
    ensures c.AppendAll(fs).connWindow >= 0
    decreases |fs|
  {
    if fs != [] {
      FitsKeepsConnWindow(c.Append(fs[0]), fs[1..], limit);
    }
  }

  /** The connection object, shared by the handler and all its producers. */
  class Connection {
    var wire: seq<Frame>
    var taken: nat
    var connWindow: int
    var initialWindow: WindowSize
    var net: map<StreamId, int>

    ghost function View(): Conn
      reads this
    {
      Conn(wire, taken, connWindow, initialWindow, net)
    }

    constructor ()
      ensures View() == FRESH_CONN
    {
      wire, taken, connWindow, initialWindow, net := [], 0, INITIAL_WINDOW, INITIAL_WINDOW, map[];
    }

    method LocalFlowControlWindow(sid: StreamId) returns (w: int)
      ensures w == View().Window(sid)
    {
      w := Min(connWindow, initialWindow + if sid in net then net[sid] else 0);
    }

    /** Every frame but DATA. */
    method SendFrame(f: Frame)
      requires !f.Data?
      modifies this
      ensures View() == old(View()).Append(f)
    {
      wire := wire + [f];
    }

    /** h2 raises FlowControlError, and sends nothing, when the frame is longer than the window. */
    method SendData(sid: StreamId, octets: seq<Octet>, endStream: bool) returns (refused: bool)
      modifies this
      ensures refused <==> |octets| > old(View()).Window(sid)
      ensures View() == if refused then old(View()) else old(View()).Append(Data(sid, octets, endStream))
    {
      var w := LocalFlowControlWindow(sid);
      if |octets| > w {
        return true;
      }
      wire := wire + [Data(sid, octets, endStream)];
      net := net[sid := (if sid in net then net[sid] else 0) - |octets|];
      connWindow := connWindow - |octets|;
      refused := false;
    }

    method DataToSend() returns (data: seq<Frame>)
      requires taken <= |wire|
      modifies `taken
      ensures data == old(wire[taken..])
      ensures View() == old(View()).(taken := |wire|)
    {
      data := wire[taken..];
      taken := |wire|;
    }
  }
}
