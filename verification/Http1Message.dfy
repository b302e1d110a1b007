/** The message `done` sends on HTTP/1.x, field by field: when it raises, when the connection is closed,
    what is chunked and compressed, and that the message says so. */
module Http1Message {
  import opened Octets
  import opened Wrappers
  import opened HeaderList
  import opened Http1Response
  import opened Http1Framing

  // ----- what is sent --------------------------------------------------------------------------------

  predicate HasBody(s: Response) {
    s.outgoing != [] && s.code != 204 && s.code != 304
  }

  predicate OneStream(s: Response) {
    |s.outgoing| == 1 && s.outgoing[0].Stream? && s.outgoing[0].ready
  }

  /** No branch of `done` is for a body of several parts that is streaming, handed over or encoded. */
  predicate NoBranch(s: Response, c: Context) {
    HasBody(s) && !OneStream(s) && (c.upgrade.Upgraded? || s.streaming || HasKey(s.fields, "content-encoding"))
  }

  /** A client that accepts codings makes `done` ask for the length, which is not a number. */
  predicate NoNumber(s: Response, c: Context) {
    && HasBody(s) && !OneStream(s) && c.accept != []
    && var length := Get(s.fields, "content-length"); length.Some? && length.value.Text?
  }

  predicate ClosesAfter(s: Response, c: Context) {
    || c.forceClose
    || (c.version == "1.0" && !(c.connection == "keep-alive" && HasKey(s.fields, "content-length")))
    || (c.version == "1.1" && c.connection == "close")
    || (c.version != "1.0" && c.version != "1.1")
  }

  predicate GoesInChunks(s: Response, c: Context) {
    if OneStream(s) && c.collecting && c.websocket then false
    else if OneStream(s) && c.collecting && c.upgrade.NewRequest? then true
    else
      && c.version == "1.1" && !c.forceClose && HasKey(s.fields, "content-type")
      && !HasKey(s.fields, "transfer-encoding") && !HasKey(s.fields, "content-length")
  }

  /** Who receives next on the channel: a request whose body is still arriving keeps it. */
  function Receives(s: Response, c: Context): Receiver {
    if HasBody(s) && OneStream(s) && c.collecting && c.websocket then Upgraded(c.request, 2)
    else if HasBody(s) && OneStream(s) && c.collecting && c.upgrade.NewRequest? then Upgraded(c.request, c.terminator)
    else c.upgrade
  }

  predicate IsText(h: Fields) {
    var t := Get(h, "content-type");
    t.Some? && t.value.Text? && ("text/" <= t.value.text || "application/json" <= t.value.text)
  }

  function LengthBefore(h: Fields, c: Context): int {
    match Get(h, "content-length")
    case Some(Number(n)) => if n > 0 then n else c.estimate
    case _ => c.estimate
  }

  /** Text or JSON of more than 2048 octets, or of unknown length, is compressed for a client that accepts
      gzip or deflate; more than a megabyte of it only in chunks. */
  function Compression(s: Response, c: Context): string {
    var n := LengthBefore(s.fields, c);
    if !HasBody(s) || OneStream(s) || !IsText(s.fields) then ""
    else if 1 <= n <= 2048 || (n > 1048576 && !GoesInChunks(s, c)) then ""
    else if "gzip" in c.accept then "gzip"
    else if "deflate" in c.accept then "deflate"
    else ""
  }

  function Carried(s: Response, c: Context, zip: Compressor): seq<Octet> {
    if !HasBody(s) then []
    else if Compression(s, c) == "" then Body(s.outgoing)
    else zip(Compression(s, c), Body(s.outgoing))
  }

  /** The values of a field in the message, by its name. */
  function FieldOf(s: Response, c: Context, zip: Compressor, key: string): seq<Value> {
    var k, before := Lower(key), Values(s.fields, key);
    if k == "connection" then
      if c.forceClose then (if c.version == "1.1" then [Text("close")] else [])
      else if c.version == "1.0" then
        if c.connection != "keep-alive" then before
        else [Text(if HasKey(s.fields, "content-length") then "keep-alive" else "close")]
      else if c.version == "1.1" then (if c.connection == "close" then [Text("close")] else before)
      else [Text("close")]
    else if !HasBody(s) then
      if k == "content-length" then [Number(0)]
      else if k == "transfer-encoding" || k == "content-type" then []
      else before
    else if OneStream(s) then
      if k == "transfer-encoding" && GoesInChunks(s, c) then [Text("chunked")] else before
    else if k == "transfer-encoding" then (if GoesInChunks(s, c) then [Text("chunked")] else [])
    else if k == "content-length" then
      if GoesInChunks(s, c) then []
      else if Compression(s, c) != "" then [Number(|Carried(s, c, zip)|)]
      else before
    else if k == "content-encoding" && Compression(s, c) != "" then [Text(Compression(s, c))]
    else before
  }

  // ----- names -----------------------------------------------------------------------------------------

  lemma NamesInLower()
    ensures Lower(CONNECTION) == "connection" && Lower(CONTENT_TYPE) == "content-type"
    ensures Lower(CONTENT_LENGTH) == "content-length" && Lower(CONTENT_ENCODING) == "content-encoding"
    ensures Lower(TRANSFER_ENCODING) == "transfer-encoding"
  {
  }

  lemma NamesStay()
    ensures Lower("connection") == "connection" && Lower("content-type") == "content-type"
    ensures Lower("content-length") == "content-length" && Lower("content-encoding") == "content-encoding"
    ensures Lower("transfer-encoding") == "transfer-encoding"
  {
  }

  lemma ByName(h: Fields)
    ensures HasKey(h, CONTENT_LENGTH) <==> HasKey(h, "content-length")
    ensures HasKey(h, CONTENT_TYPE) <==> HasKey(h, "content-type")
    ensures HasKey(h, CONTENT_ENCODING) <==> HasKey(h, "content-encoding")
    ensures HasKey(h, TRANSFER_ENCODING) <==> HasKey(h, "transfer-encoding")
    ensures Get(h, CONTENT_LENGTH) == Get(h, "content-length") && Get(h, CONTENT_TYPE) == Get(h, "content-type")
  {
    NamesInLower();
    NamesStay();
    hide Lower, HasKey, Get;
    SameName(h, CONTENT_LENGTH, "content-length");
    SameName(h, CONTENT_TYPE, "content-type");
    SameName(h, CONTENT_ENCODING, "content-encoding");
    SameName(h, TRANSFER_ENCODING, "transfer-encoding");
  }

  /** Fields with the same values of a name have the same first value. */
  lemma SameValues(h: Fields, h': Fields, key: string)
    requires Values(h, key) == Values(h', key)
    ensures (HasKey(h, key) <==> HasKey(h', key)) && Get(h, key) == Get(h', key)
  {
    ValuesAreKeys(h, key);
    ValuesAreKeys(h', key);
  }

  /** The Connection field does not matter to the others. */
  lemma ClosingKeeps(h: Fields, c: Context)
    ensures var h' := Closing(h, c).0;
            && (HasKey(h', CONTENT_ENCODING) <==> HasKey(h, CONTENT_ENCODING))
            && Get(h', CONTENT_LENGTH) == Get(h, CONTENT_LENGTH) && Get(h', CONTENT_TYPE) == Get(h, CONTENT_TYPE)
  {
    var h' := Closing(h, c).0;
    NamesDiffer();
    hide Lower, Closing, HasKey, Get;
    ClosingTouchesConnection(h, c, CONTENT_ENCODING);
    ClosingTouchesConnection(h, c, CONTENT_LENGTH);
    ClosingTouchesConnection(h, c, CONTENT_TYPE);
    SameValues(h, h', CONTENT_ENCODING);
    SameValues(h, h', CONTENT_LENGTH);
    SameValues(h, h', CONTENT_TYPE);
  }

  // ----- the decisions -----------------------------------------------------------------------------------

  lemma Decisions(s: Response, c: Context)
    ensures HasBody(s) ==> Outgoing(s) == s.outgoing && Streams(s.outgoing) == OneStream(s)
    ensures !HasBody(s) ==> Outgoing(s) == []
    ensures Wraps(s, c) == if HasBody(s) then GoesInChunks(s, c) else WrapsInChunks(s.fields, c)
    ensures HasBody(s) && !OneStream(s) ==> WrapsInChunks(s.fields, c) == GoesInChunks(s, c)
    ensures Next(s, c) == Receives(s, c)
    ensures Closing(s.fields, c).1 == ClosesAfter(s, c)
  {
    ByName(s.fields);
    hide HasKey, Put, Without;
  }

  lemma CodingIsCompression(s: Response, c: Context)
    ensures CodingOf(s, c) == Compression(s, c)
  {
    Decisions(s, c);
    ByName(s.fields);
    ClosingKeeps(s.fields, c);
    hide Closing, WrapsInChunks, GoesInChunks, HasKey, Get, Outgoing;
  }

  lemma EmittedIs(s: Response, c: Context, zip: Compressor)
    ensures Emitted(s, c, zip) == Carried(s, c, zip)
  {
    CodingIsCompression(s, c);
    Decisions(s, c);
    hide Closing, Wraps, Next, IsText, LengthBefore, GoesInChunks;
    assert !HasBody(s) ==> Outgoing(s) == [] && CodingOf(s, c) == "";
  }

  lemma RaisesIff(s: Response, c: Context)
    ensures FallsThrough(s, c) <==> NoBranch(s, c)
    ensures Raises(s, c) <==> NoBranch(s, c) || NoNumber(s, c)
  {
    Decisions(s, c);
    ByName(s.fields);
    ClosingKeeps(s.fields, c);
    hide Closing, Wraps, Next, HasKey, Get, Outgoing, GoesInChunks;
  }

  // ----- the fields --------------------------------------------------------------------------------------

  lemma ClosingAt(s: Response, c: Context, key: string)
    requires Lower(key) == "connection"
    ensures Values(Closing(s.fields, c).0, key) ==
              if c.forceClose then (if c.version == "1.1" then [Text("close")] else [])
              else if c.version == "1.0" then
                if c.connection != "keep-alive" then Values(s.fields, key)
                else [Text(if HasKey(s.fields, "content-length") then "keep-alive" else "close")]
              else if c.version == "1.1" then
                if c.connection == "close" then [Text("close")] else Values(s.fields, key)
              else [Text("close")]
  {
    NamesInLower();
    hide Lower;
    ByName(s.fields);
    PutIsOnly(s.fields, CONNECTION, Text("close"), key);
    PutIsOnly(s.fields, CONNECTION, Text("keep-alive"), key);
    DeletedOnly(s.fields, CONNECTION, key);
    hide Put, Without, HasKey, Values;
  }

  lemma EmptyAt(h: Fields, key: string)
    ensures var k := Lower(key);
            Values(EmptyFields(h), key) ==
              if k == "content-length" then [Number(0)]
              else if k == "transfer-encoding" || k == "content-type" then []
              else Values(h, key)
  {
    NamesInLower();
    hide Lower;
    var h1 := Put(h, CONTENT_LENGTH, Number(0));
    var h2 := Without(h1, TRANSFER_ENCODING);
    PutIsOnly(h, CONTENT_LENGTH, Number(0), key);
    DeletedOnly(h1, TRANSFER_ENCODING, key);
    DeletedOnly(h2, CONTENT_TYPE, key);
    hide Put, Without, Values;
  }

  lemma CodedAt(h: Fields, coding: string, wrap: bool, n: nat, key: string)
    ensures var k := Lower(key);
            Values(CodedFields(h, coding, wrap, n), key) ==
              if k == "transfer-encoding" then (if wrap then [Text("chunked")] else [])
              else if k == "content-length" then
                (if wrap then [] else if coding != "" then [Number(n)] else Values(h, key))
              else if k == "content-encoding" && coding != "" then [Text(coding)]
              else Values(h, key)
  {
    NamesInLower();
    hide Lower;
    var h0 := Without(h, CONTENT_LENGTH);
    var h1 := if coding != "" then Put(h0, CONTENT_ENCODING, Text(coding)) else h;
    DeletedOnly(h, CONTENT_LENGTH, key);
    PutIsOnly(h0, CONTENT_ENCODING, Text(coding), key);
    if wrap {
      DeletedOnly(h1, CONTENT_LENGTH, key);
      PutIsOnly(Without(h1, CONTENT_LENGTH), TRANSFER_ENCODING, Text("chunked"), key);
    } else {
      DeletedOnly(h1, TRANSFER_ENCODING, key);
      PutIsOnly(Without(h1, TRANSFER_ENCODING), CONTENT_LENGTH, Number(n), key);
    }
    hide Put, Without, Values;
  }

  lemma ConnectionStays(s: Response, c: Context, zip: Compressor, key: string)
    requires Lower(key) == "connection"
    ensures Values(Message(s, c, zip).fields, key) == Values(Closing(s.fields, c).0, key)
  {
    var h := Closing(s.fields, c).0;
    NamesInLower();
    hide Lower;
    EmptyAt(h, key);
    CodedAt(h, CodingOf(s, c), Wraps(s, c), |Emitted(s, c, zip)|, key);
    PutIsOnly(h, TRANSFER_ENCODING, Text("chunked"), key);
    hide Closing, EmptyFields, CodedFields, Put, Values, Wraps, CodingOf, Emitted, Next;
  }

  lemma OtherFieldIs(s: Response, c: Context, zip: Compressor, key: string)
    requires Lower(key) != "connection"
    ensures Values(Message(s, c, zip).fields, key) == FieldOf(s, c, zip, key)
  {
    var h := Closing(s.fields, c).0;
    NamesInLower();
    hide Lower;
    ClosingTouchesConnection(s.fields, c, key);
    Decisions(s, c);
    CodingIsCompression(s, c);
    EmittedIs(s, c, zip);
    hide Closing, Wraps, CodingOf, Emitted, Next, GoesInChunks, Compression, Carried, WrapsInChunks, Outgoing;
    EmptyAt(h, key);
    CodedAt(h, CodingOf(s, c), Wraps(s, c), |Emitted(s, c, zip)|, key);
    PutIsOnly(h, TRANSFER_ENCODING, Text("chunked"), key);
    hide EmptyFields, CodedFields, Put, Values, HasKey;
  }

  // ----- done --------------------------------------------------------------------------------------------

  /** `done` raises exactly when no branch is for the body or its length is not a number, and sends nothing
      then. Otherwise it sends one message: with the version, the code, the connection, the body and every
      field as described. */
  lemma DoneSends(s: Response, c: Context, zip: Compressor, key: string)
    requires !s.isDone && c.connected && s.error == NoError
    ensures var r := Done(s, c, zip);
            && r.isDone
            && if NoBranch(s, c) || NoNumber(s, c) then
              && r.error == (if NoBranch(s, c) then UnboundLocal else ValueError)
              && r.sent == s.sent && r.outgoing == s.outgoing
              && (Lower(key) != "connection" ==> Values(r.fields, key) == Values(s.fields, key))
            else
              && r.error == NoError && r.outgoing == [] && |r.sent| == |s.sent| + 1 && r.sent[..|s.sent|] == s.sent
              && var m, octets := r.sent[|s.sent|], Carried(s, c, zip);
                 && m.version == c.version && m.code == s.code
                 && m.closes == ClosesAfter(s, c) && m.next == Receives(s, c)
                 && m.body == (if HasBody(s) && GoesInChunks(s, c) then Chunked(octets) else Plain(octets))
                 && Values(m.fields, key) == FieldOf(s, c, zip, key)
  {
    RaisesIff(s, c);
    if Raises(s, c) {
      RaisesWhich(s, c, zip);
      if Lower(key) != "connection" {
        NamesInLower();
        ClosingTouchesConnection(s.fields, c, key);
      }
      hide *;
    } else {
      var m := Message(s, c, zip);
      assert Done(s, c, zip) == s.(isDone := true, outgoing := [], fields := m.fields, sent := s.sent + [m]);
      MessageIs(s, c, zip);
      if Lower(key) == "connection" {
        ConnectionStays(s, c, zip, key);
        ClosingAt(s, c, key);
      } else {
        OtherFieldIs(s, c, zip, key);
      }
      hide *;
    }
  }

  /** Without a channel nothing is sent, and a second `done` does nothing. */
  lemma DoneIsDone(s: Response, c: Context, zip: Compressor)
    ensures s.isDone ==> Done(s, c, zip) == s
    ensures !s.isDone && !c.connected ==> Done(s, c, zip) == s.(isDone := true)
  {
    hide Closing, Wraps, Next, HasKey, BadLength, CodingFor, CodedFields, EmptyFields;
  }

  lemma RaisesWhich(s: Response, c: Context, zip: Compressor)
    requires !s.isDone && c.connected && s.error == NoError && Raises(s, c)
    ensures var r := Done(s, c, zip);
            && r.isDone && r.sent == s.sent && r.outgoing == s.outgoing && r.fields == Closing(s.fields, c).0
            && r.error == if FallsThrough(s, c) then UnboundLocal else ValueError
  {
    Decisions(s, c);
    hide Closing, Wraps, Next, HasKey, BadLength;
  }

  lemma MessageIs(s: Response, c: Context, zip: Compressor)
    ensures var m, octets := Message(s, c, zip), Carried(s, c, zip);
            && m.version == c.version && m.code == s.code
            && m.closes == ClosesAfter(s, c) && m.next == Receives(s, c)
            && m.body == (if HasBody(s) && GoesInChunks(s, c) then Chunked(octets) else Plain(octets))
  {
    Decisions(s, c);
    EmittedIs(s, c, zip);
    hide Closing, Next, Emitted, GoesInChunks, Carried, Compression, Wraps, CodedFields, EmptyFields, Put;
    hide Receives, ClosesAfter, WrapsInChunks, CodingOf;
    if !HasBody(s) {
      NothingEmitted(s, c, zip);
    }
  }

  lemma NothingEmitted(s: Response, c: Context, zip: Compressor)
    requires !HasBody(s)
    ensures Carried(s, c, zip) == [] && Plain([]) == []
  {
  }

  // ----- content codings --------------------------------------------------------------------------------

  /** What a client makes of a body by the Content-Encoding field: section 3.1.2.2 of RFC 7231. */
  function Decoded(codings: seq<Value>, unzip: Compressor, octets: seq<Octet>): seq<Octet> {
    if codings != [] && codings[0].Text? then unzip(codings[0].text, octets) else octets
  }

  ghost predicate Inverts(unzip: Compressor, zip: Compressor) {
    forall coding, octets :: unzip(coding, zip(coding, octets)) == octets
  }

  /** A compressed body is in a coding the client accepts, and named by the message: a client that decodes
      it by the field has the body that was pushed. */
  lemma ClientDecodes(s: Response, c: Context, zip: Compressor, unzip: Compressor)
    requires !s.isDone && c.connected && s.error == NoError && !NoBranch(s, c) && !NoNumber(s, c)
    requires Inverts(unzip, zip) && !HasKey(s.fields, "content-encoding")
    ensures |Done(s, c, zip).sent| == |s.sent| + 1
    ensures var codings := Values(Done(s, c, zip).sent[|s.sent|].fields, "content-encoding");
            && Decoded(codings, unzip, Carried(s, c, zip)) == (if HasBody(s) then Body(s.outgoing) else [])
            && forall v :: v in codings ==> v.Text? && v.text in c.accept
  {
    var coding := Compression(s, c);
    DoneSends(s, c, zip, "content-encoding");
    CodingIsNamed(s, c, zip);
    BodyIsDecoded(s, c, zip, unzip);
    hide Done, HasKey, NoBranch, NoNumber, Compression, FieldOf, Carried, Inverts, Decoded;
  }

  lemma CodingIsNamed(s: Response, c: Context, zip: Compressor)
    requires !HasKey(s.fields, "content-encoding")
    ensures var coding := Compression(s, c);
            && FieldOf(s, c, zip, "content-encoding") == (if coding == "" then [] else [Text(coding)])
            && (coding != "" ==> coding in c.accept && HasBody(s))
  {
    NamesStay();
    ValuesAreKeys(s.fields, "content-encoding");
    hide Lower, HasKey, Values, IsText, LengthBefore, GoesInChunks, Carried;
  }

  lemma BodyIsDecoded(s: Response, c: Context, zip: Compressor, unzip: Compressor)
    requires Inverts(unzip, zip)
    ensures var coding := Compression(s, c);
            Decoded(if coding == "" then [] else [Text(coding)], unzip, Carried(s, c, zip)) ==
            if HasBody(s) then Body(s.outgoing) else []
  {
    hide HasBody, IsText, LengthBefore, GoesInChunks, Body;
  }
}
