/** The response object of an HTTP/1.x request. Each method is proved to do what the function of that
    name in `Http1Response` says. */
module Http1Responder {
  import opened Octets
  import opened Wrappers
  import opened HeaderList
  import H = Http1Response

  class Responder {
    const headers: ReplyHeaders
    var code: nat
    var outgoing: seq<H.Part>
    var isDone: bool
    var streaming: bool
    var sent: seq<H.Sent>
    var error: H.Error

    ghost function View(): H.Response
      reads this, headers
    {
      H.Response(code, headers.fields, outgoing, isDone, streaming, sent, error)
    }

    constructor (fields: Fields)
      ensures fresh(headers)
      ensures View() == H.Response(200, fields, [], false, false, [], H.NoError)
    {
      headers := new ReplyHeaders(fields);
      code, outgoing, isDone, streaming, sent, error := 200, [], false, false, [], H.NoError;
    }

    method Push(p: H.Part)
      modifies `outgoing
      ensures View() == H.Push(old(View()), p)
    {
      if !isDone {
        outgoing := outgoing + [p];
      }
    }

    /** The Connection field by version and request; whether to close after the message. */
    method Closing(c: H.Context) returns (closeIt: bool)
      modifies headers
      ensures (headers.fields, closeIt) == H.Closing(old(headers.fields), c)
    {
      closeIt := false;
      if c.forceClose {
        closeIt := true;
        if c.version == "1.1" {
          headers.Update(H.CONNECTION, Text("close"));
        } else {
          headers.Delete(H.CONNECTION);
        }
      } else if c.version == "1.0" {
        if c.connection == "keep-alive" {
          var known := headers.Has(H.CONTENT_LENGTH);
          if !known {
            closeIt := true;
            headers.Update(H.CONNECTION, Text("close"));
          } else {
            headers.Update(H.CONNECTION, Text("keep-alive"));
          }
        } else {
          closeIt := true;
        }
      } else if c.version == "1.1" {
        if c.connection == "close" {
          closeIt := true;
          headers.Update(H.CONNECTION, Text("close"));
        }
      } else {
        headers.Update(H.CONNECTION, Text("close"));
        closeIt := true;
      }
    }

    /** Asked before the Connection field is touched; the source asks after, to the same effect. */
    method WrapsInChunks(c: H.Context) returns (wrap: bool)
      ensures wrap == H.WrapsInChunks(headers.fields, c)
    {
      wrap := false;
      if !c.forceClose && c.version == "1.1" {
        var coded := headers.Has(H.TRANSFER_ENCODING);
        var known := headers.Has(H.CONTENT_LENGTH);
        var typed := headers.Has(H.CONTENT_TYPE);
        wrap := !coded && !known && typed;
      }
    }

    /** What the compression decision comes to; `failed` is the ValueError of `int`. */
    method WayToCompress(c: H.Context, wrap: bool) returns (coding: string, failed: bool)
      ensures failed == H.BadLength(headers.fields, c)
      ensures !failed ==> coding == H.CodingFor(headers.fields, c, wrap)
    {
      hide Get;
      coding, failed := "", false;
      if c.accept == [] {
        return;
      }
      var length := headers.Find(H.CONTENT_LENGTH);
      if length.Some? && length.value.Text? {
        return "", true;
      }
      var cl: int := if length.Some? && length.value.n != 0 then length.value.n else -1;
      if cl == -1 {
        cl := c.estimate;
      }
      if 0 < cl <= H.UNCOMPRESS_MAX || (!wrap && cl > H.ONETIME_COMPRESS_MAX) {
        return;
      }
      var contentType := headers.Find(H.CONTENT_TYPE);
      if contentType.Some? && contentType.value.Text?
         && (H.StartsWith(contentType.value.text, "text/")
             || H.StartsWith(contentType.value.text, "application/json")) {
        if "gzip" in c.accept {
          coding := "gzip";
        } else if "deflate" in c.accept {
          coding := "deflate";
        }
      }
    }

    /** Everything one producer yields. */
    method Exhaust(p: H.Part) returns (octets: seq<Octet>)
      ensures octets == H.PartOctets(p)
    {
      octets := [];
      var chunks: seq<Chunk> := [];
      match p {
        case Bytes(data) =>
          if data != [] {
            chunks := [data];
            assert chunks[1..] == [] && Flatten(chunks) == data + [];
          }
        case Stream(more, _) =>
          chunks := more;
      }
      while chunks != []
        invariant octets + Flatten(chunks) == H.PartOctets(p)
        decreases |chunks|
      {
        Associative(octets, chunks[0], Flatten(chunks[1..]));
        octets, chunks := octets + chunks[0], chunks[1..];
      }
      assert octets + [] == octets;
    }

    /** Everything the queued producers yield, in order. */
    method Drain() returns (octets: seq<Octet>)
      modifies `outgoing
      ensures octets == H.Body(old(outgoing)) && outgoing == []
    {
      hide H.PartOctets;
      octets := [];
      while outgoing != []
        invariant octets + H.Body(outgoing) == H.Body(old(outgoing))
        decreases |outgoing|
      {
        var producer := outgoing[0];
        outgoing := outgoing[1..];
        var data := Exhaust(producer);
        Associative(octets, data, H.Body(outgoing));
        octets := octets + data;
      }
    }

    method Send(version: string, body: seq<H.Symbol>, closes: bool, next: H.Receiver)
      modifies `sent
      ensures sent == old(sent) + [H.Sent(version, code, headers.fields, body, closes, next)]
    {
      sent := sent + [H.Sent(version, code, headers.fields, body, closes, next)];
    }

    /** The fields and the body of a message that may be compressed and chunked. */
    method SendCoded(c: H.Context, coding: string, wrap: bool, closes: bool, next: H.Receiver, zip: H.Compressor)
      modifies `outgoing, `sent, headers
      ensures var octets := H.Coded(coding, zip, H.Body(old(outgoing)));
              var h := H.CodedFields(old(headers.fields), coding, wrap, |octets|);
              View() == old(View()).(fields := h, outgoing := [],
                sent := old(sent) + [H.Sent(c.version, code, h, H.Wrapped(wrap, octets), closes, next)])
    {
      hide H.Wrapped, Without, Put, HasKey, Get, H.Body;
      if coding != "" {
        headers.Delete(H.CONTENT_LENGTH);
        headers.Update(H.CONTENT_ENCODING, Text(coding));
      }
      if wrap {
        headers.Delete(H.CONTENT_LENGTH);
        headers.Update(H.TRANSFER_ENCODING, Text("chunked"));
      } else {
        headers.Delete(H.TRANSFER_ENCODING);
      }
      var octets := Drain();
      if coding != "" {
        octets := zip(coding, octets);
        if !wrap {
          headers.Update(H.CONTENT_LENGTH, Number(|octets|));
        }
      }
      Send(c.version, H.Wrapped(wrap, octets), closes, next);
    }

    method SendEmpty(c: H.Context, closes: bool, next: H.Receiver)
      modifies `sent, headers
      ensures var h := H.EmptyFields(old(headers.fields));
              View() == old(View()).(fields := h, sent := old(sent) + [H.Sent(c.version, code, h, [], closes, next)])
    {
      hide Without, Put;
      headers.Update(H.CONTENT_LENGTH, Number(0));
      headers.Delete(H.TRANSFER_ENCODING);
      headers.Delete(H.CONTENT_TYPE);
      Send(c.version, [], closes, next);
    }

    /** A stream that answers a body still arriving keeps the channel for the rest of it. */
    method SendStream(c: H.Context, mayWrap: bool, closes: bool)
      modifies `outgoing, `sent, headers
      ensures var octets, wrap := H.Body(old(outgoing)), H.StreamWraps(c, mayWrap);
              var h := if wrap then Put(old(headers.fields), H.TRANSFER_ENCODING, Text("chunked"))
                       else old(headers.fields);
              View() == old(View()).(fields := h, outgoing := [],
                sent := old(sent) + [H.Sent(c.version, code, h, H.Wrapped(wrap, octets), closes, H.StreamNext(c))])
    {
      hide Put, H.Wrapped;
      var wrap, next := mayWrap, c.upgrade;
      if c.collecting {
        if c.websocket {
          wrap, next := false, H.Upgraded(c.request, 2);
        } else if next.NewRequest? {
          wrap, next := true, H.Upgraded(c.request, c.terminator);
        }
      }
      if wrap {
        headers.Update(H.TRANSFER_ENCODING, Text("chunked"));
      }
      var octets := Drain();
      Send(c.version, H.Wrapped(wrap, octets), closes, next);
    }

    /** The last of the branches of `done`, or none of them. */
    method SendOptimized(c: H.Context, wrap: bool, closes: bool, zip: H.Compressor)
      modifies `outgoing, `sent, `error, headers
      ensures var s, h := old(View()), old(headers.fields);
              if c.upgrade.Upgraded? || s.streaming || HasKey(h, H.CONTENT_ENCODING) then
                View() == s.(error := H.UnboundLocal)
              else if H.BadLength(h, c) then View() == s.(error := H.ValueError)
              else
                var coding := H.CodingFor(h, c, wrap);
                var octets := H.Coded(coding, zip, H.Body(s.outgoing));
                var h' := H.CodedFields(h, coding, wrap, |octets|);
                View() == s.(fields := h', outgoing := [],
                  sent := s.sent + [H.Sent(c.version, s.code, h', H.Wrapped(wrap, octets), closes, c.upgrade)])
    {
      hide H.BadLength, H.CodingFor, H.CodedFields, H.Body, H.Wrapped, H.Coded, HasKey;
      var encoded := headers.Has(H.CONTENT_ENCODING);
      if c.upgrade.Upgraded? || streaming || encoded {
        error := H.UnboundLocal;
        return;
      }
      var coding, failed := WayToCompress(c, wrap);
      if failed {
        error := H.ValueError;
        return;
      }
      SendCoded(c, coding, wrap, closes, c.upgrade, zip);
    }

    method Done(c: H.Context, zip: H.Compressor)
      modifies this, headers
      ensures View() == H.Done(old(View()), c, zip)
    {
      hide H.Closing, H.WrapsInChunks, H.BadLength, H.CodingFor;
      hide H.CodedFields, H.EmptyFields, H.Body, H.Wrapped, H.Coded;
      hide H.StreamWraps, H.StreamNext, Put, HasKey;
      if isDone {
        return;
      }
      isDone := true;
      if !c.connected {
        return;
      }
      var wrap := WrapsInChunks(c);
      var closes := Closing(c);
      if code == 304 || code == 204 {
        outgoing := [];
      }
      if outgoing == [] {
        SendEmpty(c, closes, c.upgrade);
      } else if |outgoing| == 1 && outgoing[0].Stream? && outgoing[0].ready {
        SendStream(c, wrap, closes);
      } else {
        SendOptimized(c, wrap, closes, zip);
      }
    }

    /** `build_error_template`: the page, and the Content-Type it sets. */
    method BuildErrorTemplate(page: H.Page) returns (body: seq<Octet>)
      modifies headers
      ensures body == page.body
      ensures var kind := H.PageType(code, page);
              headers.fields ==
                if kind.Some? then Put(old(headers.fields), H.CONTENT_TYPE, Text(kind.value)) else old(headers.fields)
    {
      hide Put;
      body := page.body;
      if code == 406 || page.wantsHtml {
        headers.Update(H.CONTENT_TYPE, Text("text/html"));
      } else if !page.custom {
        headers.Update(H.CONTENT_TYPE, Text(if page.wantsXml then "text/xml" else "application/json"));
      }
    }

    /** `error` of the source. */
    method Fail(newCode: nat, page: H.Page, pushOnly: bool, c: H.Context, zip: H.Compressor)
      modifies this, headers
      ensures View() == H.Fail(old(View()), newCode, page, pushOnly, c, zip)
    {
      hide H.Done, H.PageType, Put;
      if isDone {
        return;
      }
      outgoing, code := [], newCode;
      if c.connected && newCode != 304 && newCode != 204 {
        var body := BuildErrorTemplate(page);
        if body != [] {
          headers.Update(H.CONTENT_LENGTH, Number(|body|));
          Push(H.Bytes(body));
          assert outgoing == [H.Bytes(body)];
        }
      }
      if !pushOnly {
        Done(c.(upgrade := H.NewRequest), zip);
      }
    }

    /** `make_pushables`: the parts to push, if it does not raise. */
    method MakePushables(items: seq<H.Item>) returns (parts: seq<H.Part>)
      requires !isDone && error == H.NoError
      modifies headers, `streaming, `error
      ensures View().(outgoing := old(outgoing) + parts) == H.PushResult(old(View()), items)
      ensures error != H.NoError ==> parts == []
    {
      hide Put, HasKey;
      parts := [];
      if items == [] {
        error := H.IndexError;
        return;
      }
      ghost var g0 := H.StartGathering(View());
      var length: Option<nat> := if outgoing == [] then Some(0) else None;
      for i := 0 to |items|
        invariant outgoing == old(outgoing) && isDone == old(isDone) && sent == old(sent) && code == old(code)
        invariant error == H.NoError
        invariant H.Gathering(headers.fields, parts, length, streaming, false) == H.Gather(g0, items[..i])
      {
        GatherNext(g0, items, i);
        hide H.Gather;
        match items[i]
        case Api(contentType, text) =>
          headers.Update(H.CONTENT_TYPE, Text(contentType));
          length := H.Longer(length, |text|);
          parts := parts + [H.Bytes(text)];
        case Encoded(octets) =>
          if octets != [] {
            length := H.Longer(length, |octets|);
            parts := parts + [H.Bytes(octets)];
          }
        case Producing(chunks, ready) =>
          length, streaming := None, streaming || ready;
          parts := parts + [H.Stream(chunks, ready)];
        case Unsupported =>
          error, parts := H.AssertionError, [];
          FailureStays(g0, items, i);
          return;
      }
      assert items[..|items|] == items;
      hide H.Gather;
      var typed := headers.Has(H.CONTENT_TYPE);
      if !typed {
        headers.Set(H.CONTENT_TYPE, Text("text/html"));
      }
      if length.Some? {
        headers.Update(H.CONTENT_LENGTH, Number(length.value));
      }
    }
  }

  lemma GatherNext(g: H.Gathering, items: seq<H.Item>, i: nat)
    requires i < |items|
    ensures H.Gather(g, items[..i + 1]) == H.GatherOne(H.Gather(g, items[..i]), items[i])
  {
    assert items[..i + 1][..i] == items[..i];
  }

  /** After an unsupported part the loop is left. */
  lemma {:induction false} FailureStays(g: H.Gathering, items: seq<H.Item>, i: nat)
    requires i < |items| && H.Gather(g, items[..i + 1]).failed
    ensures H.Gather(g, items) == H.Gather(g, items[..i + 1])
    decreases |items|
  {
    if i + 1 == |items| {
      assert items[..i + 1] == items;
    } else {
      var front := items[..|items| - 1];
      assert front[..i + 1] == items[..i + 1];
      FailureStays(g, front, i);
    }
  }
}
