/** HTTP/1.x messages say where they end: when `done` raises, and exactly when the client reads
    the body that was sent, section 3.3 of RFC 7230. */
module Http1Framing {
  import opened Octets
  import opened Wrappers
  import opened HeaderList
  import opened Http1Response

  // ----- what the steps of done do to the fields --------------------------------------------------------

  lemma NamesDiffer()
    ensures Lower(CONTENT_TYPE) != Lower(CONNECTION) && Lower(CONTENT_TYPE) != Lower(CONTENT_LENGTH)
    ensures Lower(CONTENT_LENGTH) != Lower(CONNECTION)
    ensures Lower(TRANSFER_ENCODING) != Lower(CONNECTION) && Lower(TRANSFER_ENCODING) != Lower(CONTENT_TYPE)
    ensures Lower(TRANSFER_ENCODING) != Lower(CONTENT_LENGTH) && Lower(TRANSFER_ENCODING) != Lower(CONTENT_ENCODING)
    ensures Lower(CONTENT_ENCODING) != Lower(CONNECTION) && Lower(CONTENT_ENCODING) != Lower(CONTENT_TYPE)
    ensures Lower(CONTENT_ENCODING) != Lower(CONTENT_LENGTH)
  {
    hide Lower;
    assert |CONNECTION| == 10 && |CONTENT_TYPE| == 12 && |CONTENT_LENGTH| == 14;
    assert |CONTENT_ENCODING| == 16 && |TRANSFER_ENCODING| == 17;
    assert forall a, b :: Lower(a) == Lower(b) ==> |Lower(a)| == |Lower(b)|;
  }

  lemma ClosingTouchesConnection(h: Fields, c: Context, key: string)
    requires Lower(key) != Lower(CONNECTION)
    ensures Values(Closing(h, c).0, key) == Values(h, key)
  {
    hide Lower, Values, Without, Put, HasKey;
    DeletedOnly(h, CONNECTION, key);
    PutIsOnly(h, CONNECTION, Text("close"), key);
    PutIsOnly(h, CONNECTION, Text("keep-alive"), key);
  }

  lemma EmptyFieldsSay(h: Fields)
    ensures Values(EmptyFields(h), CONTENT_LENGTH) == [Number(0)] && Values(EmptyFields(h), TRANSFER_ENCODING) == []
  {
    NamesDiffer();
    hide Lower;
    var h1 := Put(h, CONTENT_LENGTH, Number(0));
    var h2 := Without(h1, TRANSFER_ENCODING);
    PutIsOnly(h, CONTENT_LENGTH, Number(0), CONTENT_LENGTH);
    DeletedOnly(h1, TRANSFER_ENCODING, CONTENT_LENGTH);
    DeletedOnly(h1, TRANSFER_ENCODING, TRANSFER_ENCODING);
    DeletedOnly(h2, CONTENT_TYPE, CONTENT_LENGTH);
    DeletedOnly(h2, CONTENT_TYPE, TRANSFER_ENCODING);
  }

  lemma CodedFieldsSay(h: Fields, coding: string, wrap: bool, n: nat)
    ensures var h' := CodedFields(h, coding, wrap, n);
            && Values(h', TRANSFER_ENCODING) == (if wrap then [Text("chunked")] else [])
            && (!wrap ==> Values(h', CONTENT_LENGTH) == if coding != "" then [Number(n)] else Values(h, CONTENT_LENGTH))
  {
    NamesDiffer();
    hide Lower;
    var h0 := Without(h, CONTENT_LENGTH);
    var h1 := if coding != "" then Put(h0, CONTENT_ENCODING, Text(coding)) else h;
    if wrap {
      PutIsOnly(Without(h1, CONTENT_LENGTH), TRANSFER_ENCODING, Text("chunked"), TRANSFER_ENCODING);
    } else {
      var h2 := Without(h1, TRANSFER_ENCODING);
      DeletedOnly(h1, TRANSFER_ENCODING, TRANSFER_ENCODING);
      DeletedOnly(h1, TRANSFER_ENCODING, CONTENT_LENGTH);
      PutIsOnly(h2, CONTENT_LENGTH, Number(n), CONTENT_LENGTH);
      PutIsOnly(h2, CONTENT_LENGTH, Number(n), TRANSFER_ENCODING);
    }
  }

  // ----- done ---------------------------------------------------------------------------------------------

  predicate Raises(s: Response, c: Context) {
    FallsThrough(s, c) || (Outgoing(s) != [] && !Streams(Outgoing(s)) && BadLength(Closing(s.fields, c).0, c))
  }

  /** The content coding `done` applies. */
  function CodingOf(s: Response, c: Context): string {
    if Outgoing(s) == [] || Streams(Outgoing(s)) then ""
    else CodingFor(Closing(s.fields, c).0, c, WrapsInChunks(s.fields, c))
  }

  /** The octets `done` sends as the body. */
  function Emitted(s: Response, c: Context, zip: Compressor): seq<Octet> {
    Coded(CodingOf(s, c), zip, Body(Outgoing(s)))
  }

  /** What has to hold for the client to read the body as sent: a response to HEAD or an interim one
      has none; else there is none, or it is chunked for a client of HTTP/1.1, or compressed, or it is
      a stream with a transfer coding of the application's that is not chunked and ends with the
      connection, or each Content-Length the application set is its length, or there is none and the
      connection is closed. */
  predicate SelfDelimiting(isHead: bool, s: Response, c: Context, zip: Compressor) {
    if Outgoing(s) == [] then true
    else if Bodiless(isHead, s.code) then !Wraps(s, c) && Emitted(s, c, zip) == []
    else if Wraps(s, c) then c.version == "1.1"
    else if CodingOf(s, c) != "" then true
    else if OwnCodings(s, c) != [] then
      OwnCodings(s, c)[|OwnCodings(s, c)| - 1] != Text("chunked") && Closing(s.fields, c).1
    else
      var lengths := Values(s.fields, CONTENT_LENGTH);
      if lengths != [] then AllAre(lengths, Number(|Body(Outgoing(s))|)) else Closing(s.fields, c).1
  }

  /** The transfer codings an application set, which only a stream keeps. */
  function OwnCodings(s: Response, c: Context): seq<Value> {
    if Streams(Outgoing(s)) then Codings(c.version, s.fields) else []
  }

  /** `done` sends nothing when it raises, and otherwise one message, which says where it ends if and
      only if the condition holds. */
  lemma DoneDelivers(s: Response, c: Context, zip: Compressor, isHead: bool)
    requires !s.isDone && c.connected && s.error == NoError
    ensures var r := Done(s, c, zip);
            if Raises(s, c) then r.sent == s.sent && r.error != NoError
            else
              && |r.sent| == |s.sent| + 1 && r.sent[..|s.sent|] == s.sent && r.error == NoError
              && r.sent[|s.sent|].next == Next(s, c)
              && (Delivers(isHead, r.sent[|s.sent|], Emitted(s, c, zip)) <==> SelfDelimiting(isHead, s, c, zip))
  {
    if !Raises(s, c) {
      var m := Message(s, c, zip);
      assert Done(s, c, zip).sent == s.sent + [m];
      MessageDelivers(s, c, zip, isHead);
    }
  }

  /** A stream that answers a request whose body is still arriving: whatever fields the application has
      set, a client of HTTP/1.1 reads it whole and no other does, and the request goes on receiving. */
  lemma AnswerWhileReceiving(s: Response, c: Context, zip: Compressor)
    requires !s.isDone && c.connected && s.error == NoError && !Bodiless(false, s.code)
    requires Streams(s.outgoing) && c.collecting && !c.websocket && c.upgrade.NewRequest?
    ensures var r := Done(s, c, zip);
            && r.error == NoError && |r.sent| == |s.sent| + 1
            && r.sent[|s.sent|].next == Upgraded(c.request, c.terminator)
            && (Delivers(false, r.sent[|s.sent|], Body(s.outgoing)) <==> c.version == "1.1")
  {
    assert Emitted(s, c, zip) == Body(s.outgoing) && Wraps(s, c) && !Raises(s, c);
    assert Next(s, c) == Upgraded(c.request, c.terminator);
    assert SelfDelimiting(false, s, c, zip) <==> c.version == "1.1";
    hide *;
    DoneDelivers(s, c, zip, false);
  }

  /** The message `done` sends. */
  function Message(s: Response, c: Context, zip: Compressor): Sent {
    var (h, closes) := Closing(s.fields, c);
    var wrap, octets := Wraps(s, c), Emitted(s, c, zip);
    var body := Wrapped(wrap, octets);
    if Outgoing(s) == [] then Sent(c.version, s.code, EmptyFields(h), [], closes, Next(s, c))
    else if Streams(Outgoing(s)) then
      Sent(c.version, s.code, if wrap then Put(h, TRANSFER_ENCODING, Text("chunked")) else h, body, closes, Next(s, c))
    else Sent(c.version, s.code, CodedFields(h, CodingOf(s, c), wrap, |octets|), body, closes, Next(s, c))
  }

  /** What the fields of the message say of the length of its body. */
  ghost predicate Says(s: Response, c: Context, zip: Compressor, m: Sent) {
    var codings, lengths := Values(m.fields, TRANSFER_ENCODING), Values(m.fields, CONTENT_LENGTH);
    var octets := Emitted(s, c, zip);
    && m.code == s.code && m.version == c.version && m.closes == Closing(s.fields, c).1
    && if Outgoing(s) == [] then m.body == [] && octets == [] && codings == [] && lengths == [Number(0)]
       else if Wraps(s, c) then m.body == Chunked(octets) && codings == [Text("chunked")]
       else m.body == Plain(octets)
            && codings == (if Streams(Outgoing(s)) then Values(s.fields, TRANSFER_ENCODING) else [])
            && lengths == if CodingOf(s, c) != "" then [Number(|octets|)] else Values(s.fields, CONTENT_LENGTH)
  }

  lemma MessageSays(s: Response, c: Context, zip: Compressor)
    ensures Says(s, c, zip, Message(s, c, zip))
  {
    NamesDiffer();
    hide Lower, Says, Message, Streams, Closing, Outgoing;
    ClosingTouchesConnection(s.fields, c, TRANSFER_ENCODING);
    ClosingTouchesConnection(s.fields, c, CONTENT_LENGTH);
    if Outgoing(s) == [] {
      EmptySays(s, c, zip);
    } else if Streams(Outgoing(s)) {
      StreamSays(s, c, zip);
    } else {
      CodedSays(s, c, zip);
    }
  }

  lemma EmptySays(s: Response, c: Context, zip: Compressor)
    requires Outgoing(s) == []
    ensures Says(s, c, zip, Message(s, c, zip))
  {
    EmptyFieldsSay(Closing(s.fields, c).0);
    assert Emitted(s, c, zip) == [];
    hide Closing, Wraps, Values, Emitted, Next, EmptyFields, CodedFields, Put, Outgoing;
  }

  lemma CodedSays(s: Response, c: Context, zip: Compressor)
    requires Outgoing(s) != [] && !Streams(Outgoing(s))
    requires Values(Closing(s.fields, c).0, CONTENT_LENGTH) == Values(s.fields, CONTENT_LENGTH)
    ensures Says(s, c, zip, Message(s, c, zip))
  {
    hide Closing, Wraps, Values, Emitted, CodingOf, Chunked, Plain, Next;
    hide EmptyFields, CodedFields, Put, Streams, Outgoing;
    CodedFieldsSay(Closing(s.fields, c).0, CodingOf(s, c), Wraps(s, c), |Emitted(s, c, zip)|);
  }

  lemma StreamSays(s: Response, c: Context, zip: Compressor)
    requires Outgoing(s) != [] && Streams(Outgoing(s))
    requires Values(Closing(s.fields, c).0, TRANSFER_ENCODING) == Values(s.fields, TRANSFER_ENCODING)
    requires Values(Closing(s.fields, c).0, CONTENT_LENGTH) == Values(s.fields, CONTENT_LENGTH)
    ensures Says(s, c, zip, Message(s, c, zip))
  {
    assert CodingOf(s, c) == "";
    hide Closing, Wraps, Values, Put, Emitted, CodingOf, Chunked, Plain, Next;
    PutIsOnly(Closing(s.fields, c).0, TRANSFER_ENCODING, Text("chunked"), TRANSFER_ENCODING);
  }

  /** The length of a plain body is told right. */
  predicate LengthTold(noBody: bool, codings: seq<Value>, lengths: seq<Value>, octets: seq<Octet>, closes: bool) {
    if noBody then octets == []
    else if codings != [] then codings[|codings| - 1] != Text("chunked") && closes
    else if lengths != [] then AllAre(lengths, Number(|octets|))
    else closes
  }

  lemma LengthToldFits(noBody: bool, codings: seq<Value>, lengths: seq<Value>, octets: seq<Octet>, closes: bool)
    ensures PlainFits(FramingBy(noBody, codings, lengths), octets, closes) <==>
            LengthTold(noBody, codings, lengths, octets, closes)
  {
  }

  lemma PlainMessageDelivers(isHead: bool, m: Sent, octets: seq<Octet>)
    requires m.body == Plain(octets)
    ensures Delivers(isHead, m, octets) <==>
            LengthTold(Bodiless(isHead, m.code), Codings(m.version, m.fields), Values(m.fields, CONTENT_LENGTH),
                       octets, m.closes)
  {
    PlainDelivers(isHead, m, octets);
    ServerNames(m.fields);
    LengthToldFits(Bodiless(isHead, m.code), Codings(m.version, m.fields), Values(m.fields, CONTENT_LENGTH),
                   octets, m.closes);
    hide *;
  }

  lemma OwnLengthTold(noBody: bool, octets: seq<Octet>, closes: bool)
    ensures LengthTold(noBody, [], [Number(|octets|)], octets, closes) <==> (noBody ==> octets == [])
  {
  }

  lemma MessageDelivers(s: Response, c: Context, zip: Compressor, isHead: bool)
    ensures Delivers(isHead, Message(s, c, zip), Emitted(s, c, zip)) <==> SelfDelimiting(isHead, s, c, zip)
  {
    hide Delivers, Message, Says, SelfDelimiting, Wraps;
    MessageSays(s, c, zip);
    if Outgoing(s) != [] && Wraps(s, c) {
      ChunkedMessageDelivers(s, c, zip, isHead, Message(s, c, zip));
    } else {
      PlainSays(s, c, zip, isHead, Message(s, c, zip));
    }
  }

  lemma ChunkedMessageDelivers(s: Response, c: Context, zip: Compressor, isHead: bool, m: Sent)
    requires Outgoing(s) != [] && Wraps(s, c) && Says(s, c, zip, m)
    ensures Delivers(isHead, m, Emitted(s, c, zip)) <==> SelfDelimiting(isHead, s, c, zip)
  {
    ChunksDeliverIff(isHead, m, Emitted(s, c, zip));
    hide Wraps, Emitted, Delivers, Values, Chunked, Closing, CodingOf;
  }

  lemma PlainSays(s: Response, c: Context, zip: Compressor, isHead: bool, m: Sent)
    requires (Outgoing(s) == [] || !Wraps(s, c)) && Says(s, c, zip, m)
    ensures Delivers(isHead, m, Emitted(s, c, zip)) <==> SelfDelimiting(isHead, s, c, zip)
  {
    var octets, noBody := Emitted(s, c, zip), Bodiless(isHead, s.code);
    assert m.body == Plain(octets);
    PlainMessageDelivers(isHead, m, octets);
    ServerNames(m.fields);
    ServerNames(s.fields);
    OwnLengthTold(noBody, octets, m.closes);
    if Outgoing(s) == [] {
      assert octets == [] && Number(|octets|) == Number(0);
      hide Wraps, Emitted, Delivers, Values, Closing, CodingOf, Chunked, Plain, Bodiless, AllAre, Body;
    } else if CodingOf(s, c) != "" {
      assert !Streams(Outgoing(s));
      hide Wraps, Emitted, Delivers, Values, Closing, CodingOf, Chunked, LengthTold, Plain, Bodiless, AllAre;
    } else {
      assert octets == Body(Outgoing(s));
      hide Wraps, Emitted, Delivers, Values, Closing, CodingOf, Chunked, Plain, Bodiless, AllAre, Body, Outgoing;
    }
  }

  // ----- the result of an application ------------------------------------------------------------------

  function ItemOctets(item: Item): seq<Octet> {
    match item
    case Api(_, text) => text
    case Encoded(octets) => octets
    case Producing(chunks, _) => Flatten(chunks)
    case Unsupported => []
  }

  function ResultOctets(items: seq<Item>): seq<Octet> {
    if items == [] then [] else ResultOctets(items[..|items| - 1]) + ItemOctets(items[|items| - 1])
  }

  lemma {:induction false} BodyAppend(a: seq<Part>, b: seq<Part>)
    ensures Body(a + b) == Body(a) + Body(b)
  {
    if a == [] {
      assert a + b == b;
    } else {
      assert (a + b)[1..] == a[1..] + b;
      BodyAppend(a[1..], b);
      Associative(PartOctets(a[0]), Body(a[1..]), Body(b));
    }
  }

  lemma BodyOne(p: Part)
    ensures Body([p]) == PartOctets(p)
  {
    assert [p][1..] == [];
  }

  predicate NoneReady(parts: seq<Part>) {
    forall p :: p in parts ==> !(p.Stream? && p.ready)
  }

  predicate Plainly(items: seq<Item>) {
    forall i :: i in items ==> !i.Unsupported? && !(i.Producing? && i.ready)
  }

  /** What the loop of `make_pushables` keeps. */
  ghost predicate Gathered(s: Response, octets: seq<Octet>, g: Gathering) {
    && Body(g.parts) == octets && NoneReady(g.parts)
    && (g.length.Some? ==> s.outgoing == [] && g.length.value == |octets|)
    && g.streaming == s.streaming && !g.failed
    && SameFraming(s.fields, g.fields)
  }

  ghost predicate SameFraming(h: Fields, h': Fields) {
    && Values(h', TRANSFER_ENCODING) == Values(h, TRANSFER_ENCODING)
    && Values(h', CONTENT_ENCODING) == Values(h, CONTENT_ENCODING)
    && Values(h', CONTENT_LENGTH) == Values(h, CONTENT_LENGTH)
  }

  lemma {:induction false} GatherKeeps(s: Response, items: seq<Item>)
    requires Plainly(items)
    ensures Gathered(s, ResultOctets(items), Gather(StartGathering(s), items))
  {
    if items != [] {
      var front, item := items[..|items| - 1], items[|items| - 1];
      assert item in items && forall i :: i in front ==> i in items;
      GatherKeeps(s, front);
      hide Gathered, StartGathering, GatherOne, ItemOctets;
      GatherOneKeeps(s, ResultOctets(front), item, Gather(StartGathering(s), front));
    }
  }

  lemma GatherOneKeeps(s: Response, octets: seq<Octet>, item: Item, g: Gathering)
    requires Gathered(s, octets, g) && !item.Unsupported? && !(item.Producing? && item.ready)
    ensures Gathered(s, octets + ItemOctets(item), GatherOne(g, item))
  {
    hide SameFraming, Body, Put;
    match item
    case Api(contentType, text) =>
      TypeKeepsFraming(s.fields, g.fields, Text(contentType));
      PartIsAdded(g.parts, Bytes(text));
    case Encoded(more) =>
      PartIsAdded(g.parts, Bytes(more));
      assert more == [] ==> octets + more == octets;
    case Producing(chunks, ready) =>
      PartIsAdded(g.parts, Stream(chunks, ready));
  }

  lemma PartIsAdded(parts: seq<Part>, p: Part)
    ensures Body(parts + [p]) == Body(parts) + PartOctets(p)
    ensures NoneReady(parts + [p]) <==> NoneReady(parts) && NoneReady([p])
  {
    BodyAppend(parts, [p]);
    BodyOne(p);
  }

  lemma TypeKeepsFraming(h: Fields, h': Fields, v: Value)
    requires SameFraming(h, h')
    ensures SameFraming(h, Put(h', CONTENT_TYPE, v))
  {
    NamesDiffer();
    hide Lower, Values, Put;
    PutIsOnly(h', CONTENT_TYPE, v, TRANSFER_ENCODING);
    PutIsOnly(h', CONTENT_TYPE, v, CONTENT_ENCODING);
    PutIsOnly(h', CONTENT_TYPE, v, CONTENT_LENGTH);
  }

  /** The fields a result leaves name a type, no coding, and the length if it is known. */
  lemma GatheredFieldsSay(g: Gathering)
    ensures var h := GatheredFields(g);
            && HasKey(h, CONTENT_TYPE)
            && Values(h, TRANSFER_ENCODING) == Values(g.fields, TRANSFER_ENCODING)
            && Values(h, CONTENT_ENCODING) == Values(g.fields, CONTENT_ENCODING)
            && Values(h, CONTENT_LENGTH) ==
               if g.length.Some? then [Number(g.length.value)] else Values(g.fields, CONTENT_LENGTH)
  {
    NamesDiffer();
    hide Lower;
    var html := [(CONTENT_TYPE, Text("text/html"))];
    var h := if HasKey(g.fields, CONTENT_TYPE) then g.fields else g.fields + html;
    OneField(CONTENT_TYPE, Text("text/html"), TRANSFER_ENCODING);
    OneField(CONTENT_TYPE, Text("text/html"), CONTENT_ENCODING);
    OneField(CONTENT_TYPE, Text("text/html"), CONTENT_LENGTH);
    OneField(CONTENT_TYPE, Text("text/html"), CONTENT_TYPE);
    hide Named;
    ValuesAppend(g.fields, html, TRANSFER_ENCODING);
    ValuesAppend(g.fields, html, CONTENT_ENCODING);
    ValuesAppend(g.fields, html, CONTENT_LENGTH);
    ValuesAppend(g.fields, html, CONTENT_TYPE);
    ValuesAreKeys(h, CONTENT_TYPE);
    ValuesAreKeys(GatheredFields(g), CONTENT_TYPE);
    if g.length.Some? {
      var n := Number(g.length.value);
      PutIsOnly(h, CONTENT_LENGTH, n, TRANSFER_ENCODING);
      PutIsOnly(h, CONTENT_LENGTH, n, CONTENT_ENCODING);
      PutIsOnly(h, CONTENT_LENGTH, n, CONTENT_LENGTH);
      PutIsOnly(h, CONTENT_LENGTH, n, CONTENT_TYPE);
    }
  }

  lemma OneField(key: string, v: Value, other: string)
    ensures Values([(key, v)], other) == if Lower(key) == Lower(other) then [v] else []
  {
    assert [(key, v)][1..] == [];
  }

  /** The response after `make_pushables` and the pushes: ready to be sent whole. */
  ghost predicate Prepared(s: Response) {
    && !s.isDone && s.error == NoError && !s.streaming && NoneReady(s.outgoing)
    && HasKey(s.fields, CONTENT_TYPE) && !HasKey(s.fields, TRANSFER_ENCODING) && !HasKey(s.fields, CONTENT_ENCODING)
    && var lengths := Values(s.fields, CONTENT_LENGTH);
       lengths == [] || lengths == [Number(|Body(s.outgoing)|)]
  }

  lemma ResultIsPrepared(s: Response, items: seq<Item>)
    requires !s.isDone && s.error == NoError && !s.streaming && NoneReady(s.outgoing)
    requires !HasKey(s.fields, TRANSFER_ENCODING) && !HasKey(s.fields, CONTENT_ENCODING)
    requires !HasKey(s.fields, CONTENT_LENGTH)
    requires items != [] && Plainly(items)
    ensures var s' := PushResult(s, items);
            Prepared(s') && Body(s'.outgoing) == Body(s.outgoing) + ResultOctets(items) &&
            s'.sent == s.sent && s'.code == s.code
  {
    var g := Gather(StartGathering(s), items);
    var s' := PushResult(s, items);
    GatherKeeps(s, items);
    GatheredFieldsSay(g);
    BodyAppend(s.outgoing, g.parts);
    ValuesAreKeys(s.fields, TRANSFER_ENCODING);
    ValuesAreKeys(s.fields, CONTENT_ENCODING);
    ValuesAreKeys(s.fields, CONTENT_LENGTH);
    ValuesAreKeys(s'.fields, TRANSFER_ENCODING);
    ValuesAreKeys(s'.fields, CONTENT_ENCODING);
    hide Values, HasKey, GatheredFields, Gather, Body;
    assert s.outgoing == [] ==> s.outgoing + g.parts == g.parts;
  }

  lemma PreparedIsSent(s: Response, c: Context, zip: Compressor)
    requires Prepared(s) && c.upgrade.NewRequest? && s.code / 100 != 1
    ensures !Raises(s, c) && SelfDelimiting(false, s, c, zip)
  {
    var h := Closing(s.fields, c).0;
    NamesDiffer();
    hide Lower;
    ClosingTouchesConnection(s.fields, c, CONTENT_ENCODING);
    ClosingTouchesConnection(s.fields, c, CONTENT_LENGTH);
    ValuesAreKeys(s.fields, CONTENT_ENCODING);
    ValuesAreKeys(s.fields, CONTENT_LENGTH);
    ValuesAreKeys(h, CONTENT_ENCODING);
    ValuesAreKeys(h, CONTENT_LENGTH);
    hide Values, Body, Coded, CodingFor, Put, Without;
    assert |s.outgoing| == 1 ==> s.outgoing[0] in s.outgoing;
  }

  /** Whatever an application returns, unless it streams or set the framing itself: `done` does not
      raise and sends one message with all of it, and the client reads exactly what was sent. */
  lemma ResultIsDelivered(s: Response, items: seq<Item>, c: Context, zip: Compressor)
    requires !s.isDone && s.error == NoError && !s.streaming && NoneReady(s.outgoing)
    requires !HasKey(s.fields, TRANSFER_ENCODING) && !HasKey(s.fields, CONTENT_ENCODING)
    requires !HasKey(s.fields, CONTENT_LENGTH)
    requires items != [] && Plainly(items)
    requires c.connected && c.upgrade.NewRequest? && s.code / 100 != 1
    ensures var s' := PushResult(s, items);
            var r, coding := Done(s', c, zip), CodingOf(s', c);
            var octets := if NoContent(s.code) then [] else Body(s.outgoing) + ResultOctets(items);
            && r.error == NoError && |r.sent| == |s.sent| + 1
            && Delivers(false, r.sent[|s.sent|], Coded(coding, zip, octets))
  {
    var s' := PushResult(s, items);
    ResultIsPrepared(s, items);
    PreparedIsSent(s', c, zip);
    assert |s'.outgoing| == 1 ==> s'.outgoing[0] in s'.outgoing;
    assert Emitted(s', c, zip) ==
           Coded(CodingOf(s', c), zip, if NoContent(s.code) then [] else Body(s.outgoing) + ResultOctets(items));
    hide PushResult, Delivers, Body, Coded, Closing, HasKey, SelfDelimiting, CodingOf, Emitted, Raises;
    DoneDelivers(s', c, zip, false);
  }

  /** What `error` leaves for `done`. */
  ghost predicate ErrorPage(s: Response, code: nat, body: seq<Octet>, s': Response) {
    && s'.code == code && s'.sent == s.sent && s'.isDone == s.isDone && s'.error == s.error
    && s'.streaming == s.streaming
    && if body == [] || NoContent(code) then s'.outgoing == []
       else s'.outgoing == [Bytes(body)] && Values(s'.fields, CONTENT_LENGTH) == [Number(|body|)]
            && (HasKey(s'.fields, CONTENT_ENCODING) <==> HasKey(s.fields, CONTENT_ENCODING))
  }

  lemma FailedIsErrorPage(s: Response, code: nat, page: Page, c: Context)
    requires c.connected
    ensures ErrorPage(s, code, page.body, Failed(s, code, page, c))
  {
    if !NoContent(code) {
      var kind := PageType(code, page);
      PageFieldsSay(s.fields,
                    if kind.Some? then Put(s.fields, CONTENT_TYPE, Text(kind.value)) else s.fields, kind, page.body);
    }
    hide Values, Put, HasKey, PageType;
  }

  /** Neither the type nor the length of a page touches its coding. */
  lemma PageFieldsSay(h: Fields, h1: Fields, kind: Option<string>, body: seq<Octet>)
    requires h1 == if kind.Some? then Put(h, CONTENT_TYPE, Text(kind.value)) else h
    ensures var h2 := Put(h1, CONTENT_LENGTH, Number(|body|));
            Values(h2, CONTENT_LENGTH) == [Number(|body|)] &&
            (HasKey(h2, CONTENT_ENCODING) <==> HasKey(h, CONTENT_ENCODING))
  {
    NamesDiffer();
    hide Lower, Values, HasKey;
    if kind.Some? {
      PutIsOnly(h, CONTENT_TYPE, Text(kind.value), CONTENT_ENCODING);
    }
    PutIsOnly(h1, CONTENT_LENGTH, Number(|body|), CONTENT_ENCODING);
    PutIsOnly(h1, CONTENT_LENGTH, Number(|body|), CONTENT_LENGTH);
    ValuesAreKeys(h, CONTENT_ENCODING);
    ValuesAreKeys(Put(h1, CONTENT_LENGTH, Number(|body|)), CONTENT_ENCODING);
    hide Put;
  }

  lemma LengthIsKnown(s: Response, c: Context, zip: Compressor)
    requires c.upgrade.NewRequest? && s.code / 100 != 1 && Outgoing(s) != [] && NoneReady(s.outgoing)
    requires Values(s.fields, CONTENT_LENGTH) == [Number(|Body(s.outgoing)|)]
    ensures Raises(s, c) <==> s.streaming || HasKey(s.fields, CONTENT_ENCODING)
    ensures SelfDelimiting(false, s, c, zip)
  {
    var h := Closing(s.fields, c).0;
    NamesDiffer();
    hide Lower;
    ClosingTouchesConnection(s.fields, c, CONTENT_ENCODING);
    ClosingTouchesConnection(s.fields, c, CONTENT_LENGTH);
    ValuesAreKeys(s.fields, CONTENT_ENCODING);
    ValuesAreKeys(h, CONTENT_ENCODING);
    ValuesAreKeys(h, CONTENT_LENGTH);
    hide Values, Closing, HasKey, Emitted, CodingOf, Body, WrapsInChunks;
    assert |s.outgoing| == 1 ==> s.outgoing[0] in s.outgoing;
  }

  /** What `done` does with a response that can be sent, in one message. */
  lemma SentWhole(s: Response, c: Context, zip: Compressor)
    requires !s.isDone && s.error == NoError && c.connected && NoneReady(s.outgoing)
    requires !Raises(s, c) && SelfDelimiting(false, s, c, zip)
    ensures var r := Done(s, c, zip);
            && r.error == NoError && |r.sent| == |s.sent| + 1 && r.sent[|s.sent|].code == s.code
            && Delivers(false, r.sent[|s.sent|], Emitted(s, c, zip))
  {
    assert |s.outgoing| == 1 ==> s.outgoing[0] in s.outgoing;
    assert Done(s, c, zip).sent == s.sent + [Message(s, c, zip)];
    assert Message(s, c, zip).code == s.code;
    hide Delivers, Done, Message, SelfDelimiting, Emitted, Raises;
    DoneDelivers(s, c, zip, false);
  }

  predicate ErrorRaises(s: Response, code: nat, body: seq<Octet>) {
    body != [] && !NoContent(code) && (s.streaming || HasKey(s.fields, CONTENT_ENCODING))
  }

  /** Whatever the application has pushed and set before an error, the error page replaces it and the
      client reads it whole; only a streaming response, or a Content-Encoding it has set, makes `done` raise. */
  lemma ErrorIsDelivered(s: Response, code: nat, page: Page, c: Context, zip: Compressor)
    requires !s.isDone && s.error == NoError && c.connected && code / 100 != 1
    ensures var r, s', c' := Fail(s, code, page, false, c, zip), Failed(s, code, page, c), c.(upgrade := NewRequest);
            if ErrorRaises(s, code, page.body) then r.error == UnboundLocal && r.sent == s.sent
            else
              && r.error == NoError && |r.sent| == |s.sent| + 1 && r.sent[|s.sent|].code == code
              && Delivers(false, r.sent[|s.sent|],
                          Coded(CodingOf(s', c'), zip, if NoContent(code) then [] else page.body))
  {
    var s', body, c' := Failed(s, code, page, c), page.body, c.(upgrade := NewRequest);
    FailedIsErrorPage(s, code, page, c);
    assert Fail(s, code, page, false, c, zip) == Done(s', c', zip);
    hide Failed, Fail;
    ErrorIsReady(s, code, body, s', c', zip);
    if ErrorRaises(s, code, body) {
      hide ErrorRaises, ErrorPage, Closing, CodingFor, Coded, Body, Delivers;
    } else {
      hide Done, Delivers, Raises, SelfDelimiting, FallsThrough, ErrorRaises, Emitted, CodingOf, Coded;
      SentWhole(s', c', zip);
    }
  }

  lemma ErrorIsReady(s: Response, code: nat, body: seq<Octet>, s': Response, c: Context, zip: Compressor)
    requires ErrorPage(s, code, body, s') && c.upgrade.NewRequest? && code / 100 != 1
    ensures NoneReady(s'.outgoing)
    ensures Emitted(s', c, zip) == Coded(CodingOf(s', c), zip, if NoContent(code) then [] else body)
    ensures if ErrorRaises(s, code, body) then FallsThrough(s', c)
            else !Raises(s', c) && SelfDelimiting(false, s', c, zip)
  {
    if body != [] && !NoContent(code) {
      BodyOne(Bytes(body));
      hide Body, HasKey, Closing, Values, Coded, CodingOf, WrapsInChunks;
      LengthIsKnown(s', c, zip);
      NotBadLength(s', c);
      hide SelfDelimiting, BadLength;
    } else {
      hide HasKey, Closing, Values, Coded, CodingOf, WrapsInChunks, BadLength;
    }
  }

  lemma NotBadLength(s: Response, c: Context)
    requires var lengths := Values(s.fields, CONTENT_LENGTH); lengths != [] && lengths[0].Number?
    ensures !BadLength(Closing(s.fields, c).0, c)
  {
    NamesDiffer();
    hide Lower;
    ClosingTouchesConnection(s.fields, c, CONTENT_LENGTH);
    ValuesAreKeys(Closing(s.fields, c).0, CONTENT_LENGTH);
    hide Closing, Values;
  }

  // ----- one head -----------------------------------------------------------------------------------------

  /** What an application and the server may do with a response. */
  datatype Op =
    | Pushing(part: Part)
    | Returning(items: seq<Item>)
    | Setting(key: string, value: Value)
    | Deleting(key: string)
    | Failing(code: nat, page: Page, pushOnly: bool, context: Context)
    | Finishing(context: Context)

  function Apply(s: Response, op: Op, zip: Compressor): Response {
    match op
    case Pushing(part) => Push(s, part)
    case Returning(items) => PushResult(s, items)
    case Setting(key, value) => s.(fields := s.fields + [(key, value)])
    case Deleting(key) => s.(fields := Without(s.fields, key))
    case Failing(code, page, pushOnly, context) => Fail(s, code, page, pushOnly, context, zip)
    case Finishing(context) => Done(s, context, zip)
  }

  function ApplyAll(s: Response, ops: seq<Op>, zip: Compressor): Response {
    if ops == [] then s else Apply(ApplyAll(s, ops[..|ops| - 1], zip), ops[|ops| - 1], zip)
  }

  lemma DoneSendsOnce(s: Response, c: Context, zip: Compressor)
    ensures Done(s, c, zip).isDone
    ensures s.isDone ==> Done(s, c, zip) == s
    ensures s.sent == [] ==> |Done(s, c, zip).sent| <= 1
  {
    hide Closing, WrapsInChunks, FallsThrough, CodedFields, EmptyFields, CodingFor, BadLength, Coded, Put;
  }

  /** Done is done: the message is not changed, nor followed by another. */
  lemma OpSendsOnce(s: Response, op: Op, zip: Compressor)
    ensures var r := Apply(s, op, zip);
            && (s.isDone ==> r.isDone && r.sent == s.sent && r.outgoing == s.outgoing)
            && (s.sent == [] ==> |r.sent| <= 1 && (!r.isDone ==> r.sent == []))
  {
    hide Done, Fail, PushResult, Without;
    match op
    case Returning(items) => PushResultSendsNothing(s, items);
    case Failing(code, page, pushOnly, context) => FailSendsOnce(s, code, page, pushOnly, context, zip);
    case Finishing(context) => DoneSendsOnce(s, context, zip);
    case _ =>
  }

  /** However often and in whatever order a response is filled, failed and finished, and in whatever
      state an exception leaves it: one head at most is sent, and none before it is done. */
  lemma {:induction false} OneHead(s: Response, ops: seq<Op>, zip: Compressor)
    requires s.sent == [] && !s.isDone
    ensures var r := ApplyAll(s, ops, zip);
            |r.sent| <= 1 && (!r.isDone ==> r.sent == [])
  {
    if ops != [] {
      var front := ops[..|ops| - 1];
      OneHead(s, front, zip);
      hide Apply;
      OpSendsOnce(ApplyAll(s, front, zip), ops[|ops| - 1], zip);
    }
  }

  lemma PushResultSendsNothing(s: Response, items: seq<Item>)
    ensures PushResult(s, items).isDone == s.isDone && PushResult(s, items).sent == s.sent
    ensures s.isDone ==> PushResult(s, items) == s
  {
    hide Gather, GatheredFields;
  }

  lemma FailSendsOnce(s: Response, code: nat, page: Page, pushOnly: bool, c: Context, zip: Compressor)
    ensures var r := Fail(s, code, page, pushOnly, c, zip);
            && (s.isDone ==> r == s)
            && (s.sent == [] ==> |r.sent| <= 1 && (!r.isDone ==> r.sent == []))
  {
    hide Done, Put;
    if !s.isDone {
      DoneSendsOnce(Failed(s, code, page, c), c.(upgrade := NewRequest), zip);
    }
  }
}
