/** What `make_pushables` makes of the result of an application, and `error` of an error, down to the
    message: the type, the length, and the octets a client has when it has decoded them. */
module Http1Results {
  import opened Octets
  import opened Wrappers
  import opened HeaderList
  import opened Http1Response
  import opened Http1Framing
  import opened Http1Message

  // ----- the result of an application ------------------------------------------------------------------

  /** The parts of a result; an empty text is none. */
  function PartsOf(items: seq<Item>): seq<Part> {
    if items == [] then []
    else
      PartsOf(items[..|items| - 1]) +
      match items[|items| - 1]
      case Api(_, text) => [Bytes(text)]
      case Encoded(octets) => if octets == [] then [] else [Bytes(octets)]
      case Producing(chunks, ready) => [Stream(chunks, ready)]
      case Unsupported => []
  }

  /** The type of the last API object. */
  function ApiType(items: seq<Item>): Option<string> {
    if items == [] then None
    else if items[|items| - 1].Api? then Some(items[|items| - 1].contentType)
    else ApiType(items[..|items| - 1])
  }

  predicate Supported(items: seq<Item>) {
    forall i :: 0 <= i < |items| ==> !items[i].Unsupported?
  }

  predicate Produces(items: seq<Item>) {
    exists i :: 0 <= i < |items| && items[i].Producing?
  }

  predicate Readies(items: seq<Item>) {
    exists i :: 0 <= i < |items| && items[i].Producing? && items[i].ready
  }

  function TypeField(items: seq<Item>, before: seq<Value>): seq<Value> {
    if ApiType(items).Some? then [Text(ApiType(items).value)] else before
  }

  /** What the loop of `make_pushables` has gathered of supported items. */
  ghost predicate GatheredAll(s: Response, items: seq<Item>, g: Gathering) {
    && !g.failed && g.parts == PartsOf(items)
    && (g.streaming <==> s.streaming || Readies(items))
    && g.length == (if s.outgoing == [] && !Produces(items) then Some(|ResultOctets(items)|) else None)
  }

  lemma LastOne(items: seq<Item>, item: Item)
    ensures var all := items + [item];
            && (Supported(all) <==> Supported(items) && !item.Unsupported?)
            && (Produces(all) <==> Produces(items) || item.Producing?)
            && (Readies(all) <==> Readies(items) || (item.Producing? && item.ready))
            && ResultOctets(all) == ResultOctets(items) + ItemOctets(item)
  {
    var all := items + [item];
    assert all[..|items|] == items && all[|items|] == item;
    assert forall i :: 0 <= i < |items| ==> all[i] == items[i];
  }

  lemma {:induction false} AllIsGathered(s: Response, items: seq<Item>)
    requires Supported(items)
    ensures GatheredAll(s, items, Gather(StartGathering(s), items))
  {
    if items != [] {
      var front, item := items[..|items| - 1], items[|items| - 1];
      assert items == front + [item];
      LastOne(front, item);
      AllIsGathered(s, front);
      hide Supported, Produces, Readies, Put, ResultOctets;
    }
  }

  lemma {:induction false} GatheredType(s: Response, items: seq<Item>, key: string)
    requires Supported(items)
    ensures var h := Gather(StartGathering(s), items).fields;
            Values(h, key) ==
            if Lower(key) == "content-type" then TypeField(items, Values(s.fields, key)) else Values(s.fields, key)
  {
    if items != [] {
      var front, item := items[..|items| - 1], items[|items| - 1];
      assert forall i :: 0 <= i < |front| ==> front[i] == items[i];
      GatheredType(s, front, key);
      AllIsGathered(s, front);
      NamesInLower();
      hide Supported, Values, Lower, StartGathering, Put, GatheredAll;
      var g := Gather(StartGathering(s), front);
      assert !g.failed by { Unfailed(s, front); }
      if item.Api? {
        PutIsOnly(g.fields, CONTENT_TYPE, Text(item.contentType), key);
      }
    }
  }

  lemma Unfailed(s: Response, items: seq<Item>)
    requires GatheredAll(s, items, Gather(StartGathering(s), items))
    ensures !Gather(StartGathering(s), items).failed
  {
  }

  lemma {:induction false} UnsupportedFails(s: Response, items: seq<Item>)
    ensures Gather(StartGathering(s), items).failed <==> !Supported(items)
  {
    if items != [] {
      var front, item := items[..|items| - 1], items[|items| - 1];
      assert items == front + [item];
      LastOne(front, item);
      UnsupportedFails(s, front);
      hide Supported, Put;
    }
  }

  /** The Content-Type a result is sent with: that of its last API object, else that of the application,
      else HTML; and its Content-Length, if it is known. */
  lemma GatheredFieldIs(g: Gathering, key: string)
    ensures var k, before := Lower(key), Values(g.fields, key);
            Values(GatheredFields(g), key) ==
            if k == "content-type" then (if before == [] then [Text("text/html")] else before)
            else if k == "content-length" && g.length.Some? then [Number(g.length.value)]
            else before
  {
    NamesInLower();
    hide Lower;
    var html := [(CONTENT_TYPE, Text("text/html"))];
    var h := if HasKey(g.fields, CONTENT_TYPE) then g.fields else g.fields + html;
    OneField(CONTENT_TYPE, Text("text/html"), key);
    ValuesAreKeys(g.fields, CONTENT_TYPE);
    if Lower(key) == "content-type" {
      SameName(g.fields, CONTENT_TYPE, key);
    }
    hide Named, HasKey;
    ValuesAppend(g.fields, html, key);
    if g.length.Some? {
      PutIsOnly(h, CONTENT_LENGTH, Number(g.length.value), key);
    }
    hide Values, Put;
  }

  /** `make_pushables` and the pushes, for every result: what it raises, and else the parts pushed in order,
      the streaming flag, and every field. */
  lemma ResultIsPushed(s: Response, items: seq<Item>, key: string)
    requires !s.isDone && s.error == NoError
    ensures var s', k := PushResult(s, items), Lower(key);
            && s'.sent == s.sent && s'.code == s.code && !s'.isDone
            && if items == [] then s'.error == IndexError && s'.outgoing == s.outgoing
               else if !Supported(items) then s'.error == AssertionError && s'.outgoing == s.outgoing
               else
                 && s'.error == NoError && s'.outgoing == s.outgoing + PartsOf(items)
                 && (s'.streaming <==> s.streaming || Readies(items))
                 && var before := Values(s.fields, key);
                    Values(s'.fields, key) ==
                    if k == "content-type" then
                      var types := TypeField(items, before); if types == [] then [Text("text/html")] else types
                    else if k == "content-length" && s.outgoing == [] && !Produces(items) then
                      [Number(|ResultOctets(items)|)]
                    else before
  {
    UnsupportedFails(s, items);
    if items != [] && Supported(items) {
      AllIsGathered(s, items);
      GatheredType(s, items, key);
      GatheredFieldIs(Gather(StartGathering(s), items), key);
    }
    hide Supported, Values, Lower, Gather, GatheredFields, PartsOf, ApiType, ResultOctets, Produces, Readies;
  }

  /** A client that decodes what it reads by the Content-Encoding has the result of the application. */
  lemma ResultIsDecoded(s: Response, items: seq<Item>, c: Context, zip: Compressor, unzip: Compressor)
    requires !s.isDone && s.error == NoError && !s.streaming && NoneReady(s.outgoing)
    requires !HasKey(s.fields, TRANSFER_ENCODING) && !HasKey(s.fields, CONTENT_ENCODING)
    requires !HasKey(s.fields, CONTENT_LENGTH)
    requires items != [] && Plainly(items)
    requires c.connected && c.upgrade.NewRequest? && s.code / 100 != 1 && Inverts(unzip, zip)
    ensures |Done(PushResult(s, items), c, zip).sent| == |s.sent| + 1
    ensures var s' := PushResult(s, items);
            var m, octets := Done(s', c, zip).sent[|s.sent|], Carried(s', c, zip);
            && Delivers(false, m, octets)
            && Decoded(Values(m.fields, "content-encoding"), unzip, octets) ==
               if s.code == 204 || s.code == 304 then [] else Body(s.outgoing) + ResultOctets(items)
  {
    var s' := PushResult(s, items);
    ResultIsPrepared(s, items);
    PreparedIsSent(s', c, zip);
    RaisesIff(s', c);
    NotEncoded(s');
    assert !s'.isDone && s'.error == NoError && NoneReady(s'.outgoing);
    hide PushResult, Delivers, Carried, Decoded, Values, HasKey, SelfDelimiting, Raises, NoBranch, NoNumber, Prepared;
    hide Done, Body, ResultOctets, Emitted, NoneReady;
    SentWhole(s', c, zip);
    EmittedIs(s', c, zip);
    ClientDecodes(s', c, zip, unzip);
    EmptyBody(s');
  }

  lemma NotEncoded(s: Response)
    requires Prepared(s)
    ensures !HasKey(s.fields, "content-encoding")
  {
    ByName(s.fields);
    hide HasKey;
  }

  lemma EmptyBody(s: Response)
    ensures s.outgoing == [] ==> Body(s.outgoing) == []
  {
  }

  // ----- errors -------------------------------------------------------------------------------------------

  /** The page of an error is sent with its code: HTML for a client that asks for it and for 406, with the
      type the application has set if the page is its own, else as XML or JSON. With `push_only` it is
      pushed and nothing is sent. */
  lemma ErrorIsTyped(s: Response, code: nat, page: Page, c: Context, zip: Compressor)
    requires !s.isDone && s.error == NoError && c.connected && code / 100 != 1
    requires page.body != [] && code != 204 && code != 304
    requires !s.streaming && !HasKey(s.fields, "content-encoding")
    ensures var r := Fail(s, code, page, true, c, zip);
            !r.isDone && r.sent == s.sent && r.code == code && r.outgoing == [Bytes(page.body)]
    ensures |Fail(s, code, page, false, c, zip).sent| == |s.sent| + 1
    ensures var m := Fail(s, code, page, false, c, zip).sent[|s.sent|];
            && m.code == code && m.next == NewRequest && (c.forceClose ==> m.closes)
            && Values(m.fields, "content-type") ==
               if code == 406 || page.wantsHtml then [Text("text/html")]
               else if page.custom then Values(s.fields, "content-type")
               else [Text(if page.wantsXml then "text/xml" else "application/json")]
  {
    var s', c' := Failed(s, code, page, c), c.(upgrade := NewRequest);
    assert Fail(s, code, page, false, c, zip) == Done(s', c', zip);
    FailedIs(s, code, page, c);
    NamesStay();
    hide Done, Fail, Failed, Values, HasKey, Lower;
    NotANumber(s');
    DoneSends(s', c', zip, "content-type");
    hide Compression, Carried, GoesInChunks;
  }

  /** Without a channel, or for a code without content, no page is rendered; without a channel nothing is sent. */
  lemma NoPageWithoutChannel(s: Response, code: nat, page: Page, pushOnly: bool, c: Context, zip: Compressor)
    requires !s.isDone && (!c.connected || code == 204 || code == 304)
    ensures pushOnly || !c.connected ==>
              var r := Fail(s, code, page, pushOnly, c, zip);
              r.sent == s.sent && r.outgoing == [] && r.code == code && r.fields == s.fields
  {
    var s', c' := Failed(s, code, page, c), c.(upgrade := NewRequest);
    DoneIsDone(s', c', zip);
    hide Done, Put;
  }

  lemma NotANumber(s: Response)
    requires var lengths := Values(s.fields, "content-length"); lengths != [] && lengths[0].Number?
    ensures forall c :: !NoNumber(s, c)
  {
    ValuesAreKeys(s.fields, "content-length");
    hide Values;
  }

  lemma FailedIs(s: Response, code: nat, page: Page, c: Context)
    requires c.connected && page.body != [] && code != 204 && code != 304
    ensures var s' := Failed(s, code, page, c);
            && s' == s.(code := code, outgoing := [Bytes(page.body)], fields := s'.fields)
            && Values(s'.fields, "content-type") ==
               (if code == 406 || page.wantsHtml then [Text("text/html")]
                else if page.custom then Values(s.fields, "content-type")
                else [Text(if page.wantsXml then "text/xml" else "application/json")])
            && Values(s'.fields, "content-length") == [Number(|page.body|)]
            && (HasKey(s'.fields, "content-encoding") <==> HasKey(s.fields, "content-encoding"))
  {
    var kind := PageType(code, page);
    var h := if kind.Some? then Put(s.fields, CONTENT_TYPE, Text(kind.value)) else s.fields;
    PageFieldIs(s.fields, kind, |page.body|, "content-type");
    PageFieldIs(s.fields, kind, |page.body|, "content-length");
    PageFieldIs(s.fields, kind, |page.body|, "content-encoding");
    NamesStay();
    ValuesAreKeys(s.fields, "content-encoding");
    ValuesAreKeys(Put(h, CONTENT_LENGTH, Number(|page.body|)), "content-encoding");
    hide Values, Put, HasKey, Lower;
  }

  lemma PageFieldIs(h: Fields, kind: Option<string>, n: nat, key: string)
    ensures var h1 := if kind.Some? then Put(h, CONTENT_TYPE, Text(kind.value)) else h;
            Values(Put(h1, CONTENT_LENGTH, Number(n)), key) ==
            if Lower(key) == "content-length" then [Number(n)]
            else if Lower(key) == "content-type" && kind.Some? then [Text(kind.value)]
            else Values(h, key)
  {
    NamesInLower();
    hide Lower;
    var h1 := if kind.Some? then Put(h, CONTENT_TYPE, Text(kind.value)) else h;
    if kind.Some? {
      PutIsOnly(h, CONTENT_TYPE, Text(kind.value), key);
    }
    PutIsOnly(h1, CONTENT_LENGTH, Number(n), key);
    hide Put, Values;
  }
}
