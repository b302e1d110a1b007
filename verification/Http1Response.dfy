/** The response of an HTTP/1.x request: what `make_pushables`, `push`, `error` and `done` send, and
    what a client makes of it by section 3.3.3 of RFC 7230. */
module Http1Response {
  import opened Octets
  import opened Wrappers
  import opened HeaderList

  // ----- parts of a body -----------------------------------------------------------------------------

  /** What was pushed: octets, or a producer; a `ready` one is streamed. */
  datatype Part = Bytes(octets: seq<Octet>) | Stream(chunks: seq<Chunk>, ready: bool)

  function PartOctets(p: Part): seq<Octet> {
    match p
    case Bytes(octets) => octets
    case Stream(chunks, _) => Flatten(chunks)
  }

  function Body(parts: seq<Part>): seq<Octet> {
    if parts == [] then [] else PartOctets(parts[0]) + Body(parts[1..])
  }

  // ----- messages on the wire -------------------------------------------------------------------------

  /** The body of a message, and what follows it on the connection: octets, or chunks of the chunked
      coding, whose octets are not spelled out here. */
  datatype Symbol = Raw(octet: Octet) | ChunkOf(octets: seq<Octet>) | LastChunk

  /** Who is given what the channel receives next: a new request, or one that took the channel over,
      up to a terminator. */
  datatype Receiver = NewRequest | Upgraded(request: nat, terminator: int)

  datatype Sent = Sent(
    version: string, code: nat, fields: Fields, body: seq<Symbol>, closes: bool, next: Receiver)

  function Plain(octets: seq<Octet>): (r: seq<Symbol>)
    ensures |r| == |octets| && forall i :: 0 <= i < |r| ==> r[i] == Raw(octets[i])
  {
    seq(|octets|, i requires 0 <= i < |octets| => Raw(octets[i]))
  }

  function Chunked(octets: seq<Octet>): seq<Symbol> {
    (if octets == [] then [] else [ChunkOf(octets)]) + [LastChunk]
  }

  function Wrapped(wrap: bool, octets: seq<Octet>): seq<Symbol> {
    if wrap then Chunked(octets) else Plain(octets)
  }

  const CONTENT_LENGTH := "Content-Length"
  const CONTENT_TYPE := "Content-Type"
  const CONTENT_ENCODING := "Content-Encoding"
  const TRANSFER_ENCODING := "Transfer-Encoding"
  const CONNECTION := "Connection"

  // ----- the client ------------------------------------------------------------------------------------

  /** How the length of a message body is determined: section 3.3.3 of RFC 7230. */
  datatype Framing = NoBody | InChunks | OfLength(n: nat) | UntilClose | Unusable

  predicate AllAre(values: seq<Value>, v: Value) {
    forall i :: 0 <= i < |values| ==> values[i] == v
  }

  function FramingBy(noBody: bool, codings: seq<Value>, lengths: seq<Value>): Framing {
    if noBody then NoBody
    else if codings != [] then
      if codings[|codings| - 1] == Text("chunked") then InChunks else UntilClose
    else if lengths == [] then UntilClose
    else if lengths[0].Number? && AllAre(lengths, lengths[0]) then OfLength(lengths[0].n)
    else Unusable
  }

  predicate Bodiless(isHead: bool, code: nat) {
    isHead || code / 100 == 1 || code == 204 || code == 304
  }

  /** Transfer codings are not known before HTTP/1.1. */
  function Codings(version: string, h: Fields): seq<Value> {
    if version == "1.1" then Values(h, "transfer-encoding") else []
  }

  function FramingOf(isHead: bool, m: Sent): Framing {
    FramingBy(Bodiless(isHead, m.code), Codings(m.version, m.fields), Values(m.fields, "content-length"))
  }

  /** What the client looks for is what the server sets. */
  lemma ServerNames(h: Fields)
    ensures Values(h, TRANSFER_ENCODING) == Values(h, "transfer-encoding")
    ensures Values(h, CONTENT_LENGTH) == Values(h, "content-length")
  {
    assert Lower(TRANSFER_ENCODING) == Lower("transfer-encoding");
    assert Lower(CONTENT_LENGTH) == Lower("content-length");
    hide Lower;
    SameName(h, TRANSFER_ENCODING, "transfer-encoding");
    SameName(h, CONTENT_LENGTH, "content-length");
  }

  /** The body the client reads, and what it leaves on the connection. */
  datatype Reading = Got(octets: seq<Octet>, rest: seq<Symbol>) | Lost

  function ReadPlain(wire: seq<Symbol>, n: nat): Reading {
    if n == 0 then Got([], wire)
    else if wire == [] || !wire[0].Raw? then Lost
    else match ReadPlain(wire[1..], n - 1)
      case Got(octets, rest) => Got([wire[0].octet] + octets, rest)
      case Lost => Lost
  }

  function ReadChunks(wire: seq<Symbol>): Reading {
    if wire == [] || wire[0].Raw? then Lost
    else if wire[0].LastChunk? then Got([], wire[1..])
    else match ReadChunks(wire[1..])
      case Got(octets, rest) => Got(wire[0].octets + octets, rest)
      case Lost => Lost
  }

  function ReadBody(framing: Framing, wire: seq<Symbol>): Reading {
    match framing
    case NoBody => Got([], wire)
    case InChunks => ReadChunks(wire)
    case OfLength(n) => ReadPlain(wire, n)
    case UntilClose => ReadPlain(wire, |wire|)
    case Unusable => Lost
  }

  /** The message says where it ends: whatever the server sends after it, nothing if it closes the
      connection, the client reads just this body. */
  ghost predicate Delivers(isHead: bool, m: Sent, octets: seq<Octet>) {
    forall rest :: (m.closes ==> rest == []) ==>
      ReadBody(FramingOf(isHead, m), m.body + rest) == Got(octets, rest)
  }

  // ----- done ---------------------------------------------------------------------------------------------

  const UNCOMPRESS_MAX := 2048
  const ONETIME_COMPRESS_MAX := 1048576

  /** The request, and what `done` is called with. `connection` is its Connection field in lower case,
      `accept` the codings of its Accept-Encoding field, `estimate` what the queued producers say of
      their length, `connected` that the channel is still there. `upgrade` is the hand-over `done` is
      called with. `request` is the request itself, `terminator` the channel's, `collecting` tells that
      its collector is alive, and `websocket` that it asks for a web socket. */
  datatype Context = Context(
    version: string, connection: string, accept: seq<string>, estimate: int, connected: bool, forceClose: bool,
    upgrade: Receiver, request: nat, terminator: int, collecting: bool, websocket: bool)

  /** The two compressors, by name of the coding. */
  type Compressor = (string, seq<Octet>) -> seq<Octet>

  datatype Error = NoError | UnboundLocal | ValueError | IndexError | AssertionError

  datatype Response = Response(
    code: nat, fields: Fields, outgoing: seq<Part>, isDone: bool, streaming: bool, sent: seq<Sent>, error: Error)

  predicate NoContent(code: nat) {
    code == 304 || code == 204
  }

  /** The Connection field, and whether the connection is closed after the message. */
  function Closing(h: Fields, c: Context): (Fields, bool) {
    if c.forceClose then
      (if c.version == "1.1" then Put(h, CONNECTION, Text("close")) else Without(h, CONNECTION), true)
    else if c.version == "1.0" then
      if c.connection != "keep-alive" then (h, true)
      else if HasKey(h, CONTENT_LENGTH) then (Put(h, CONNECTION, Text("keep-alive")), false)
      else (Put(h, CONNECTION, Text("close")), true)
    else if c.version == "1.1" then
      if c.connection == "close" then (Put(h, CONNECTION, Text("close")), true) else (h, false)
    else (Put(h, CONNECTION, Text("close")), true)
  }

  predicate WrapsInChunks(h: Fields, c: Context) {
    && !c.forceClose && c.version == "1.1"
    && !HasKey(h, TRANSFER_ENCODING) && !HasKey(h, CONTENT_LENGTH) && HasKey(h, CONTENT_TYPE)
  }

  predicate StartsWith(s: string, prefix: string) {
    prefix <= s
  }

  predicate Compressible(h: Fields) {
    var t := Get(h, CONTENT_TYPE);
    t.Some? && t.value.Text? && (StartsWith(t.value.text, "text/") || StartsWith(t.value.text, "application/json"))
  }

  /** The length the compression decision goes by. */
  function KnownLength(h: Fields, c: Context): int {
    var v := Get(h, CONTENT_LENGTH);
    if v.Some? && v.value.Number? && v.value.n != 0 then v.value.n else c.estimate
  }

  /** The content coding, or "" for none. */
  function CodingFor(h: Fields, c: Context, wrap: bool): string {
    var n := KnownLength(h, c);
    if c.accept == [] || 0 < n <= UNCOMPRESS_MAX || (!wrap && n > ONETIME_COMPRESS_MAX) || !Compressible(h) then ""
    else if "gzip" in c.accept then "gzip"
    else if "deflate" in c.accept then "deflate"
    else ""
  }

  predicate Streams(parts: seq<Part>) {
    |parts| == 1 && parts[0].Stream? && parts[0].ready
  }

  /** A stream that answers a request whose body is still arriving is always chunked, unless it is a
      web socket or `done` hands the channel to somebody else, */
  predicate StreamWraps(c: Context, wrap: bool) {
    if c.collecting && c.websocket then false
    else if c.collecting && c.upgrade.NewRequest? then true
    else wrap
  }

  /** and the request keeps the channel for the rest of its body. */
  function StreamNext(c: Context): Receiver {
    if c.collecting && c.websocket then Upgraded(c.request, 2)
    else if c.collecting && c.upgrade.NewRequest? then Upgraded(c.request, c.terminator)
    else c.upgrade
  }

  predicate Wraps(s: Response, c: Context) {
    var wrap := WrapsInChunks(s.fields, c);
    if Streams(Outgoing(s)) then StreamWraps(c, wrap) else wrap
  }

  function Next(s: Response, c: Context): Receiver {
    if Streams(Outgoing(s)) then StreamNext(c) else c.upgrade
  }

  /** What is still to be sent when `done` gets to it. */
  function Outgoing(s: Response): seq<Part> {
    if NoContent(s.code) then [] else s.outgoing
  }

  /** A Content-Length that `int` rejects, when it is asked. */
  predicate BadLength(h: Fields, c: Context) {
    var v := Get(h, CONTENT_LENGTH);
    c.accept != [] && v.Some? && v.value.Text?
  }

  /** Nothing assigned the outgoing producer: the branches of `done` leave one case out. */
  predicate FallsThrough(s: Response, c: Context) {
    Outgoing(s) != [] && !Streams(Outgoing(s)) &&
    (c.upgrade.Upgraded? || s.streaming || HasKey(Closing(s.fields, c).0, CONTENT_ENCODING))
  }

  /** The fields of a message whose body goes through compression and chunking, or neither. */
  function CodedFields(h: Fields, coding: string, wrap: bool, length: nat): Fields {
    var h1 := if coding != "" then Put(Without(h, CONTENT_LENGTH), CONTENT_ENCODING, Text(coding)) else h;
    if wrap then Put(Without(h1, CONTENT_LENGTH), TRANSFER_ENCODING, Text("chunked"))
    else
      var h2 := Without(h1, TRANSFER_ENCODING);
      if coding != "" then Put(h2, CONTENT_LENGTH, Number(length)) else h2
  }

  function EmptyFields(h: Fields): Fields {
    Without(Without(Put(h, CONTENT_LENGTH, Number(0)), TRANSFER_ENCODING), CONTENT_TYPE)
  }

  function Coded(coding: string, zip: Compressor, octets: seq<Octet>): seq<Octet> {
    if coding != "" then zip(coding, octets) else octets
  }

  /** `done`. */
  function Done(s: Response, c: Context, zip: Compressor): Response {
    if s.isDone then s
    else if !c.connected then s.(isDone := true)
    else
      var (h, closes) := Closing(s.fields, c);
      var wrap, next, parts := Wraps(s, c), Next(s, c), Outgoing(s);
      var s1 := s.(isDone := true, fields := h, outgoing := []);
      if parts == [] then
        var h' := EmptyFields(h);
        s1.(fields := h', sent := s.sent + [Sent(c.version, s.code, h', [], closes, next)])
      else if Streams(parts) then
        var h' := if wrap then Put(h, TRANSFER_ENCODING, Text("chunked")) else h;
        var body := Wrapped(wrap, Body(parts));
        s1.(fields := h', sent := s.sent + [Sent(c.version, s.code, h', body, closes, next)])
      else if FallsThrough(s, c) then s1.(outgoing := parts, error := UnboundLocal)
      else if BadLength(h, c) then s1.(outgoing := parts, error := ValueError)
      else
        var coding := CodingFor(h, c, wrap);
        var octets := Coded(coding, zip, Body(parts));
        var h' := CodedFields(h, coding, wrap, |octets|);
        s1.(fields := h', sent := s.sent + [Sent(c.version, s.code, h', Wrapped(wrap, octets), closes, next)])
  }

  // ----- push, error and the parts of a result ----------------------------------------------------------

  function Push(s: Response, p: Part): Response {
    if s.isDone then s else s.(outgoing := s.outgoing + [p])
  }

  /** What decides the type of an error page: the Accept field asks for HTML, or for XML, and whether
      the application has rendered the page itself. */
  datatype Page = Page(body: seq<Octet>, wantsHtml: bool, wantsXml: bool, custom: bool)

  /** The Content-Type that rendering the page sets; a page that is not HTML comes from `fault`. */
  function PageType(code: nat, page: Page): Option<string> {
    if code == 406 || page.wantsHtml then Some("text/html")
    else if page.custom then None
    else Some(if page.wantsXml then "text/xml" else "application/json")
  }

  /** `error` up to its call of `done`; nothing is rendered for a code without content. */
  function Failed(s: Response, code: nat, page: Page, c: Context): Response {
    if !c.connected || NoContent(code) then s.(code := code, outgoing := [])
    else
      var kind := PageType(code, page);
      var h := if kind.Some? then Put(s.fields, CONTENT_TYPE, Text(kind.value)) else s.fields;
      if page.body == [] then s.(code := code, fields := h, outgoing := [])
      else s.(code := code, fields := Put(h, CONTENT_LENGTH, Number(|page.body|)), outgoing := [Bytes(page.body)])
  }

  /** `error`, which never hands the channel over. */
  function Fail(s: Response, code: nat, page: Page, pushOnly: bool, c: Context, zip: Compressor): Response {
    if s.isDone then s
    else if pushOnly then Failed(s, code, page, c)
    else Done(Failed(s, code, page, c), c.(upgrade := NewRequest), zip)
  }

  /** What an application may return, part by part: an API object, octets (text is encoded before),
      a stream or iterator or producer, or anything else. */
  datatype Item =
    | Api(contentType: string, text: seq<Octet>)
    | Encoded(octets: seq<Octet>)
    | Producing(chunks: seq<Chunk>, ready: bool)
    | Unsupported

  /** The loop of `make_pushables`: `length` is the total while it is known. */
  datatype Gathering = Gathering(fields: Fields, parts: seq<Part>, length: Option<nat>, streaming: bool, failed: bool)

  function Longer(length: Option<nat>, n: nat): Option<nat> {
    if length.Some? then Some(length.value + n) else None
  }

  function GatherOne(g: Gathering, item: Item): Gathering {
    if g.failed then g
    else match item
      case Api(contentType, text) =>
        g.(fields := Put(g.fields, CONTENT_TYPE, Text(contentType)), parts := g.parts + [Bytes(text)],
           length := Longer(g.length, |text|))
      case Encoded(octets) =>
        if octets == [] then g else g.(parts := g.parts + [Bytes(octets)], length := Longer(g.length, |octets|))
      case Producing(chunks, ready) =>
        g.(parts := g.parts + [Stream(chunks, ready)], length := None, streaming := g.streaming || ready)
      case Unsupported => g.(failed := true)
  }

  function Gather(g: Gathering, items: seq<Item>): Gathering {
    if items == [] then g else GatherOne(Gather(g, items[..|items| - 1]), items[|items| - 1])
  }

  function StartGathering(s: Response): Gathering {
    Gathering(s.fields, [], if s.outgoing == [] then Some(0) else None, s.streaming, false)
  }

  /** The fields `make_pushables` leaves. */
  function GatheredFields(g: Gathering): Fields {
    var h := if HasKey(g.fields, CONTENT_TYPE) then g.fields else g.fields + [(CONTENT_TYPE, Text("text/html"))];
    if g.length.Some? then Put(h, CONTENT_LENGTH, Number(g.length.value)) else h
  }

  /** `make_pushables`, and the pushes of what it returns. */
  function PushResult(s: Response, items: seq<Item>): Response {
    if s.isDone then s
    else if items == [] then s.(error := IndexError)
    else
      var g := Gather(StartGathering(s), items);
      if g.failed then s.(fields := g.fields, streaming := g.streaming, error := AssertionError)
      else s.(fields := GatheredFields(g), streaming := g.streaming, outgoing := s.outgoing + g.parts)
  }

  // ----- when a message says where it ends -----------------------------------------------------------------

  lemma {:induction false} PlainIsRead(octets: seq<Octet>, rest: seq<Symbol>)
    ensures ReadPlain(Plain(octets) + rest, |octets|) == Got(octets, rest)
  {
    var wire := Plain(octets) + rest;
    if octets == [] {
      assert wire == rest;
    } else {
      assert wire[1..] == Plain(octets[1..]) + rest;
      PlainIsRead(octets[1..], rest);
      assert octets == [octets[0]] + octets[1..];
    }
  }

  lemma {:induction false} PlainIsTooShort(octets: seq<Octet>, n: nat)
    requires n > |octets|
    ensures ReadPlain(Plain(octets), n) == Lost
  {
    if octets != [] {
      assert Plain(octets)[1..] == Plain(octets[1..]);
      PlainIsTooShort(octets[1..], n - 1);
    }
  }

  lemma PlainIsTooLong(octets: seq<Octet>, n: nat)
    requires n < |octets|
    ensures ReadPlain(Plain(octets), n) == Got(octets[..n], Plain(octets[n..]))
  {
    assert Plain(octets) == Plain(octets[..n]) + Plain(octets[n..]);
    PlainIsRead(octets[..n], Plain(octets[n..]));
  }

  /** Whether a body sent as plain octets is read as such. */
  predicate PlainFits(framing: Framing, octets: seq<Octet>, closes: bool) {
    match framing
    case NoBody => octets == []
    case InChunks => false
    case OfLength(n) => n == |octets|
    case UntilClose => closes
    case Unusable => false
  }

  lemma PlainDelivers(isHead: bool, m: Sent, octets: seq<Octet>)
    requires m.body == Plain(octets)
    ensures Delivers(isHead, m, octets) <==> PlainFits(FramingOf(isHead, m), octets, m.closes)
  {
    var framing := FramingOf(isHead, m);
    hide FramingOf;
    if PlainFits(framing, octets, m.closes) {
      forall rest | m.closes ==> rest == [] ensures ReadBody(framing, m.body + rest) == Got(octets, rest) {
        PlainIsRead(octets, rest);
        if octets == [] { assert m.body + rest == rest; }
      }
    } else {
      PlainMisses(framing, octets, m.closes);
      var rest := if framing.UntilClose? then [Raw(0)] else [];
      assert m.body + [] == m.body;
      assert ReadBody(framing, m.body + rest) != Got(octets, rest);
    }
  }

  lemma PlainMisses(framing: Framing, octets: seq<Octet>, closes: bool)
    requires !PlainFits(framing, octets, closes)
    ensures ReadBody(framing, Plain(octets) + if framing.UntilClose? then [Raw(0)] else []) !=
            Got(octets, if framing.UntilClose? then [Raw(0)] else [])
  {
    var wire := Plain(octets);
    assert wire + [] == wire;
    match framing
    case OfLength(n) =>
      if n > |octets| { PlainIsTooShort(octets, n); } else { PlainIsTooLong(octets, n); }
    case UntilClose =>
      assert wire + [Raw(0)] == Plain(octets + [0]) + [];
      PlainIsRead(octets + [0], []);
    case _ =>
  }

  lemma ChunksDeliverIff(isHead: bool, m: Sent, octets: seq<Octet>)
    requires m.body == Chunked(octets)
    requires m.version == "1.1" ==> Values(m.fields, TRANSFER_ENCODING) == [Text("chunked")]
    ensures Delivers(isHead, m, octets) <==> m.version == "1.1" && !Bodiless(isHead, m.code)
  {
    var framing := FramingOf(isHead, m);
    ServerNames(m.fields);
    assert framing == InChunks <==> m.version == "1.1" && !Bodiless(isHead, m.code);
    hide FramingOf;
    if framing == InChunks {
      forall rest | m.closes ==> rest == [] ensures ReadBody(framing, m.body + rest) == Got(octets, rest) {
        ChunksAreRead(octets, rest);
      }
    } else {
      var wire := m.body + [];
      assert wire == m.body && |wire| > 0 && !wire[0].Raw?;
      assert ReadBody(framing, wire) != Got(octets, []);
    }
  }

  lemma ChunksAreRead(octets: seq<Octet>, rest: seq<Symbol>)
    ensures ReadChunks(Chunked(octets) + rest) == Got(octets, rest)
  {
    var wire := Chunked(octets) + rest;
    assert wire[|Chunked(octets)| - 1..] == [LastChunk] + rest && ([LastChunk] + rest)[1..] == rest;
    assert ReadChunks([LastChunk] + rest) == Got([], rest);
    if octets != [] {
      assert wire[0] == ChunkOf(octets) && wire[1..] == [LastChunk] + rest && octets + [] == octets;
    } else {
      assert wire == [LastChunk] + rest;
    }
  }
}
