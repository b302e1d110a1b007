/** The `done` of a response on HTTP/2: one hand-over to the connection, without hop-by-hop fields. */
module Http2Response {
  import opened Octets
  import opened Wrappers
  import opened HeaderList
  import opened Http1Response
  import opened Http1Framing
  import opened Http1Message

  /** What `handle_response` is called with: fields, and the octets of the body if there is one. */
  datatype Handed = Handed(fields: Fields, body: Option<seq<Octet>>)

  /** The content coding, or "" for none; unlike on HTTP/1.x there is no upper limit. */
  function CodingFor(h: Fields, c: Context): string {
    var n := KnownLength(h, c);
    if c.accept == [] || 0 < n <= UNCOMPRESS_MAX || !Compressible(h) then ""
    else if "gzip" in c.accept then "gzip"
    else if "deflate" in c.accept then "deflate"
    else ""
  }

  function EndToEnd(h: Fields): Fields {
    Without(Without(h, TRANSFER_ENCODING), CONNECTION)
  }

  /** Sent as it is: streamed, upgraded, or encoded by the application. */
  predicate AsItIs(s: Response, c: Context) {
    Streams(s.outgoing) || c.upgrade.Upgraded? || s.streaming || HasKey(EndToEnd(s.fields), CONTENT_ENCODING)
  }

  /** `done`: the response, and what it hands over. `ValueError` is of `int`, as on HTTP/1.x. */
  function Finish(s: Response, c: Context, zip: Compressor): (Response, Option<Handed>) {
    if s.isDone then (s, None)
    else if !c.connected then (s.(isDone := true), None)
    else
      var h, octets := EndToEnd(s.fields), Body(s.outgoing);
      var s1 := s.(isDone := true, fields := h, outgoing := []);
      if s.outgoing == [] then
        var h' := Without(Without(h, CONTENT_TYPE), CONTENT_LENGTH);
        (s1.(fields := h'), Some(Handed(h', None)))
      else if AsItIs(s, c) then (s1, Some(Handed(h, Some(octets))))
      else if BadLength(h, c) then (s1.(outgoing := s.outgoing, error := ValueError), None)
      else
        var coding := CodingFor(h, c);
        if coding == "" then (s1, Some(Handed(h, Some(octets))))
        else
          var h' := Put(Without(h, CONTENT_LENGTH), CONTENT_ENCODING, Text(coding));
          (s1.(fields := h'), Some(Handed(h', Some(zip(coding, octets)))))
  }

  lemma EndToEndSays(h: Fields)
    ensures Values(EndToEnd(h), TRANSFER_ENCODING) == [] && Values(EndToEnd(h), CONNECTION) == []
    ensures forall key :: Lower(key) != Lower(TRANSFER_ENCODING) && Lower(key) != Lower(CONNECTION) ==>
              Values(EndToEnd(h), key) == Values(h, key)
  {
    NamesDiffer();
    hide Lower;
    var h1 := Without(h, TRANSFER_ENCODING);
    DeletedOnly(h, TRANSFER_ENCODING, TRANSFER_ENCODING);
    DeletedOnly(h1, CONNECTION, TRANSFER_ENCODING);
    DeletedOnly(h1, CONNECTION, CONNECTION);
    hide Values, Without;
    forall key | Lower(key) != Lower(TRANSFER_ENCODING) && Lower(key) != Lower(CONNECTION)
      ensures Values(EndToEnd(h), key) == Values(h, key)
    {
      DeletedOnly(h, TRANSFER_ENCODING, key);
      DeletedOnly(h1, CONNECTION, key);
    }
  }

  /** The Content-Length fields, if any, tell the length of the body. */
  predicate TellsLength(h: Fields, n: nat) {
    AllAre(Values(h, CONTENT_LENGTH), Number(n))
  }

  /** What is handed over has no Transfer-Encoding and no Connection field (section 8.1.2.2 of RFC 7540),
      and if the Content-Length was that of the body before, it is that of the DATA octets (section
      8.1.2.6), whether they were compressed or not. */
  lemma HandedIsWellFormed(s: Response, c: Context, zip: Compressor)
    ensures var (_, handed) := Finish(s, c, zip);
            handed.Some? ==>
              var (h, body) := (handed.value.fields, handed.value.body);
              && Values(h, TRANSFER_ENCODING) == [] && Values(h, CONNECTION) == []
              && (body.None? <==> s.outgoing == [])
              && (TellsLength(s.fields, |Body(s.outgoing)|) ==> TellsLength(h, if body.Some? then |body.value| else 0))
  {
    var h := EndToEnd(s.fields);
    EndToEndSays(s.fields);
    NamesDiffer();
    hide Lower;
    EmptySays(h);
    CompressedSays(h, CodingFor(h, c));
    hide Values, Without, Put, Body, CodingFor, BadLength, AsItIs, EndToEnd;
  }

  lemma EmptySays(h: Fields)
    ensures var h' := Without(Without(h, CONTENT_TYPE), CONTENT_LENGTH);
            && Values(h', CONTENT_LENGTH) == []
            && Values(h', TRANSFER_ENCODING) == Values(h, TRANSFER_ENCODING)
            && Values(h', CONNECTION) == Values(h, CONNECTION)
  {
    NamesDiffer();
    hide Lower;
    var h1 := Without(h, CONTENT_TYPE);
    DeletedOnly(h1, CONTENT_LENGTH, CONTENT_LENGTH);
    DeletedOnly(h, CONTENT_TYPE, TRANSFER_ENCODING);
    DeletedOnly(h1, CONTENT_LENGTH, TRANSFER_ENCODING);
    DeletedOnly(h, CONTENT_TYPE, CONNECTION);
    DeletedOnly(h1, CONTENT_LENGTH, CONNECTION);
  }

  lemma CompressedSays(h: Fields, coding: string)
    ensures var h' := Put(Without(h, CONTENT_LENGTH), CONTENT_ENCODING, Text(coding));
            && Values(h', CONTENT_LENGTH) == []
            && Values(h', TRANSFER_ENCODING) == Values(h, TRANSFER_ENCODING)
            && Values(h', CONNECTION) == Values(h, CONNECTION)
  {
    NamesDiffer();
    hide Lower;
    var h1, v := Without(h, CONTENT_LENGTH), Text(coding);
    DeletedOnly(h, CONTENT_LENGTH, CONTENT_LENGTH);
    DeletedOnly(h, CONTENT_LENGTH, TRANSFER_ENCODING);
    DeletedOnly(h, CONTENT_LENGTH, CONNECTION);
    PutIsOnly(h1, CONTENT_ENCODING, v, CONTENT_LENGTH);
    PutIsOnly(h1, CONTENT_ENCODING, v, TRANSFER_ENCODING);
    PutIsOnly(h1, CONTENT_ENCODING, v, CONNECTION);
  }

  /** The result of an application is handed over once, whole, with a Content-Length, if any, that is
      the number of its DATA octets. */
  lemma ResultIsHandedOver(s: Response, items: seq<Item>, c: Context, zip: Compressor)
    requires !s.isDone && s.error == NoError && !s.streaming && NoneReady(s.outgoing)
    requires !HasKey(s.fields, TRANSFER_ENCODING) && !HasKey(s.fields, CONTENT_ENCODING)
    requires !HasKey(s.fields, CONTENT_LENGTH)
    requires items != [] && Plainly(items) && c.connected && c.upgrade.NewRequest?
    ensures var s' := PushResult(s, items);
            var (r, handed) := Finish(s', c, zip);
            && handed.Some? && r.isDone && Finish(r, c, zip) == (r, None)
            && var h, octets := EndToEnd(s'.fields), Body(s.outgoing) + ResultOctets(items);
               var body := handed.value.body;
               && (body.None? ==> octets == [])
               && (body.Some? ==> body.value == Coded(CodingFor(h, c), zip, octets))
               && TellsLength(handed.value.fields, if body.Some? then |body.value| else 0)
  {
    var s' := PushResult(s, items);
    ResultIsPrepared(s, items);
    HandedIsWellFormed(s', c, zip);
    PreparedIsCoded(s', c);
    hide PushResult, Values, Without, Put, Prepared, CodingFor;
  }

  lemma PreparedIsCoded(s: Response, c: Context)
    requires Prepared(s) && c.upgrade.NewRequest?
    ensures !s.isDone && !AsItIs(s, c) && !BadLength(EndToEnd(s.fields), c) && TellsLength(s.fields, |Body(s.outgoing)|)
  {
    var h := EndToEnd(s.fields);
    EndToEndSays(s.fields);
    NamesDiffer();
    hide Lower;
    ValuesAreKeys(s.fields, CONTENT_ENCODING);
    ValuesAreKeys(h, CONTENT_ENCODING);
    ValuesAreKeys(h, CONTENT_LENGTH);
    hide Values, EndToEnd, HasKey, Body;
    assert |s.outgoing| == 1 ==> s.outgoing[0] in s.outgoing;
  }

  // ----- field by field --------------------------------------------------------------------------------

  predicate StreamsOrHandsOver(s: Response, c: Context) {
    OneStream(s) || c.upgrade.Upgraded? || s.streaming
  }

  /** Text or JSON of more than 2048 octets, or of unknown length, is compressed for a client that accepts
      gzip or deflate, unless it is streamed or the application has encoded it. */
  function HandedCoding(s: Response, c: Context): string {
    if s.outgoing == [] || StreamsOrHandsOver(s, c) || HasKey(s.fields, "content-encoding") then ""
    else if 1 <= LengthBefore(s.fields, c) <= 2048 || !IsText(s.fields) then ""
    else if "gzip" in c.accept then "gzip"
    else if "deflate" in c.accept then "deflate"
    else ""
  }

  /** The values of a field that is handed over, by its name. */
  function HandedField(s: Response, c: Context, key: string): seq<Value> {
    var k := Lower(key);
    if k == "transfer-encoding" || k == "connection" then []
    else if k == "content-type" && s.outgoing == [] then []
    else if k == "content-length" && (s.outgoing == [] || HandedCoding(s, c) != "") then []
    else if k == "content-encoding" && HandedCoding(s, c) != "" then [Text(HandedCoding(s, c))]
    else Values(s.fields, key)
  }

  /** A client that accepts codings makes `done` ask for a length, which is not a number. */
  predicate HandsNothing(s: Response, c: Context) {
    && s.outgoing != [] && !StreamsOrHandsOver(s, c) && !HasKey(s.fields, "content-encoding") && c.accept != []
    && var length := Get(s.fields, "content-length"); length.Some? && length.value.Text?
  }

  lemma EndToEndAt(h: Fields, key: string)
    ensures Values(EndToEnd(h), key) ==
            if Lower(key) == "transfer-encoding" || Lower(key) == "connection" then [] else Values(h, key)
  {
    NamesInLower();
    hide Lower;
    DeletedOnly(h, TRANSFER_ENCODING, key);
    DeletedOnly(Without(h, TRANSFER_ENCODING), CONNECTION, key);
    hide Without, Values;
  }

  /** Neither of the two matters to the others. */
  lemma EndToEndKeeps(h: Fields)
    ensures var h' := EndToEnd(h);
            && (HasKey(h', CONTENT_ENCODING) <==> HasKey(h, "content-encoding"))
            && Get(h', CONTENT_LENGTH) == Get(h, "content-length") && Get(h', CONTENT_TYPE) == Get(h, "content-type")
  {
    var h' := EndToEnd(h);
    NamesStay();
    EndToEndAt(h, "content-encoding");
    EndToEndAt(h, "content-length");
    EndToEndAt(h, "content-type");
    SameValues(h, h', "content-encoding");
    SameValues(h, h', "content-length");
    SameValues(h, h', "content-type");
    ByName(h');
    hide EndToEnd, Values, HasKey, Get, Lower;
  }

  lemma CodingIs(s: Response, c: Context)
    ensures var h, free := EndToEnd(s.fields), s.outgoing != [] && !AsItIs(s, c);
            && (free ==> CodingFor(h, c) == HandedCoding(s, c)) && (!free ==> HandedCoding(s, c) == "")
            && (HandsNothing(s, c) <==> free && BadLength(h, c))
  {
    EndToEndKeeps(s.fields);
    hide EndToEnd, HasKey, Get;
  }

  lemma CompressedAt(h: Fields, coding: string, key: string)
    ensures var k := Lower(key);
            Values(Put(Without(h, CONTENT_LENGTH), CONTENT_ENCODING, Text(coding)), key) ==
            if k == "content-length" then [] else if k == "content-encoding" then [Text(coding)] else Values(h, key)
  {
    NamesInLower();
    hide Lower;
    DeletedOnly(h, CONTENT_LENGTH, key);
    PutIsOnly(Without(h, CONTENT_LENGTH), CONTENT_ENCODING, Text(coding), key);
    hide Without, Put, Values;
  }

  lemma EmptyHandedAt(h: Fields, key: string)
    ensures var k := Lower(key);
            Values(Without(Without(h, CONTENT_TYPE), CONTENT_LENGTH), key) ==
            if k == "content-length" || k == "content-type" then [] else Values(h, key)
  {
    NamesInLower();
    hide Lower;
    DeletedOnly(h, CONTENT_TYPE, key);
    DeletedOnly(Without(h, CONTENT_TYPE), CONTENT_LENGTH, key);
    hide Without, Values;
  }

  /** `done` hands over once, with every field as described, Location and the cookies of the application
      among them, and the body, compressed or not; it raises, and hands nothing over, exactly when it
      asks for a length that is not a number. */
  lemma DoneHandsOver(s: Response, c: Context, zip: Compressor, key: string)
    requires !s.isDone && c.connected
    ensures var (r, handed) := Finish(s, c, zip);
            && r.isDone && (r.error == if HandsNothing(s, c) then ValueError else s.error)
            && (handed.None? <==> HandsNothing(s, c))
            && (handed.Some? ==>
                  var coding := HandedCoding(s, c);
                  && handed.value.body == (if s.outgoing == [] then None
                                           else if coding == "" then Some(Body(s.outgoing))
                                           else Some(zip(coding, Body(s.outgoing))))
                  && Values(handed.value.fields, key) == HandedField(s, c, key))
  {
    var h, coding := EndToEnd(s.fields), HandedCoding(s, c);
    CodingIs(s, c);
    EndToEndAt(s.fields, key);
    EmptyHandedAt(h, key);
    CompressedAt(h, coding, key);
    hide EndToEnd, Values, Without, Put, Body, AsItIs, BadLength, CodingFor, HandedCoding, HandsNothing, Lower;
  }

  /** Without a channel nothing is handed over, and a second `done` does nothing. */
  lemma DoneIsDone(s: Response, c: Context, zip: Compressor)
    ensures s.isDone ==> Finish(s, c, zip) == (s, None)
    ensures !s.isDone && !c.connected ==> Finish(s, c, zip) == (s.(isDone := true), None)
  {
    hide EndToEnd, AsItIs, BadLength, CodingFor;
  }

  /** A client that decodes the body by the Content-Encoding has what was pushed, in a coding it accepts. */
  lemma HandedIsDecoded(s: Response, c: Context, zip: Compressor, unzip: Compressor)
    requires !s.isDone && c.connected && Inverts(unzip, zip)
    requires !HasKey(s.fields, "content-encoding") && !HandsNothing(s, c)
    ensures var (_, handed) := Finish(s, c, zip);
            && handed.Some? && (handed.value.body.Some? <==> s.outgoing != [])
            && var codings := Values(handed.value.fields, "content-encoding");
               && (handed.value.body.Some? ==> Decoded(codings, unzip, handed.value.body.value) == Body(s.outgoing))
               && forall v :: v in codings ==> v.Text? && v.text in c.accept
  {
    DoneHandsOver(s, c, zip, "content-encoding");
    CodingIsHanded(s, c);
    hide Finish, HandsNothing, HandedCoding, HandedField, HasKey, Values, Body;
  }

  lemma CodingIsHanded(s: Response, c: Context)
    requires !HasKey(s.fields, "content-encoding")
    ensures var coding := HandedCoding(s, c);
            && HandedField(s, c, "content-encoding") == (if coding == "" then [] else [Text(coding)])
            && (coding != "" ==> coding in c.accept)
  {
    NamesStay();
    ValuesAreKeys(s.fields, "content-encoding");
    hide Lower, HasKey, Values, IsText, LengthBefore;
  }
}
