/** The three objects behind a request body: the virtual channel, the request and its collector.
    Each method is proved to do what the function of the same name in `BodyPath` says. */
module BodyChannel {
  import opened Octets
  import opened Wrappers
  import B = BodyPath

  class HttpRequest {
    const channel: DataChannel
    var collector: FormCollector?
    var rbytes: nat
    var continued: seq<Option<seq<Octet>>>
    var rejected: bool

    constructor (channel: DataChannel)
      ensures this.channel == channel && collector == null && rbytes == 0 && continued == [] && !rejected
    {
      this.channel, collector, rbytes, continued, rejected := channel, null, 0, [], false;
    }

    /** `make_collector` for a new request, and the start of the collector it makes. */
    method MakeCollector(contentLength: Option<int>, limit: nat) returns (c: FormCollector, raised: bool)
      requires collector == null && rbytes == 0 && continued == [] && !rejected
      requires channel.currentRequest == this && channel.terminator == B.Unlimited
      requires channel.inBuffer == [] && channel.data == [] && channel.chunks == [] && channel.dataSize == 0
      modifies `collector, `continued, `rejected, channel`terminator
      ensures fresh(c) && channel.Valid(c) && channel.View(c, raised) == B.Open(contentLength, limit)
    {
      c := new FormCollector(this, contentLength);
      raised := false;
      if contentLength.None? {
        c.SetMaxContentLength(limit);
      } else if contentLength.value > limit {
        rejected := true;
        return;
      }
      collector := c;
      raised := c.StartCollect();
    }

    method CollectIncomingData(data: seq<Octet>, ghost c: FormCollector) returns (raised: bool)
      requires channel.Valid(c) && channel.currentRequest == this
      modifies `rbytes, c`size, c`buffer
      ensures channel.Valid(c) && channel.View(c, raised) == B.Collect(old(channel.View(c, false)), data)
    {
      raised := false;
      if collector != null {
        rbytes := rbytes + |data|;
        raised := collector.CollectIncomingData(data);
      }
    }

    method FoundTerminator(ghost c: FormCollector)
      requires channel.Valid(c) && channel.currentRequest == this
      modifies `collector, `continued, channel`terminator
      ensures channel.Valid(c) && channel.View(c, false) == B.FoundTerminator(old(channel.View(c, false)))
    {
      if collector != null {
        collector.FoundTerminator();
      }
    }
  }

  class FormCollector {
    const request: HttpRequest
    const contentLength: Option<int>
    var maxLength: nat
    var size: nat
    var buffer: seq<Octet>

    constructor (request: HttpRequest, contentLength: Option<int>)
      ensures this.request == request && this.contentLength == contentLength
      ensures maxLength == 0 && size == 0 && buffer == []
    {
      this.request, this.contentLength := request, contentLength;
      maxLength, size, buffer := 0, 0, [];
    }

    method SetMaxContentLength(maxLength: nat)
      modifies `maxLength
      ensures this.maxLength == maxLength
    {
      this.maxLength := maxLength;
    }

    method StartCollect() returns (raised: bool)
      requires request.channel.Valid(this) && request.collector == this
      modifies request`collector, request`continued, request.channel`terminator
      ensures request.channel.Valid(this)
      ensures var s, s' := old(request.channel.View(this, false)), request.channel.View(this, false);
              if contentLength == Some(0) then !raised && s' == B.FoundTerminator(s)
              else if contentLength.None? || contentLength.value == -1 then
                !raised && s' == s.(terminator := B.Unlimited)
              else if contentLength.value < -1 then raised && s' == s
              else !raised && s' == s.(terminator := B.Count(contentLength.value))
    {
      raised := false;
      if contentLength == Some(0) {
        FoundTerminator();
        return;
      }
      raised := request.channel.SetTerminator(contentLength);
    }

    method CollectIncomingData(data: seq<Octet>) returns (raised: bool)
      modifies `size, `buffer
      ensures size == old(size) + |data|
      ensures raised == (maxLength != 0 && size > maxLength)
      ensures buffer == if raised then old(buffer) else old(buffer) + data
    {
      size := size + |data|;
      if maxLength != 0 && size > maxLength {
        return true;
      }
      buffer := buffer + data;
      raised := false;
    }

    method FoundTerminator()
      modifies request`collector, request`continued, request.channel`terminator
      ensures request.collector == null && request.channel.terminator == B.Delimiter
      ensures request.continued == old(request.continued) + [B.BodyOf(buffer)]
    {
      request.collector := null;
      request.channel.terminator := B.Delimiter;
      if buffer != [] {
        request.continued := request.continued + [Some(buffer)];
      } else {
        request.continued := request.continued + [None];
      }
    }
  }

  class DataChannel {
    var currentRequest: HttpRequest?
    var terminator: B.Terminator
    var inBuffer: seq<Octet>
    var data: seq<seq<Octet>>
    var chunks: seq<nat>
    var dataSize: nat

    /** `c` is the collector of the request, or was. */
    ghost predicate Valid(c: FormCollector)
      reads this, currentRequest
    {
      && currentRequest != null && currentRequest.channel == this && c.request == currentRequest
      && (currentRequest.collector == c || currentRequest.collector == null)
    }

    ghost function View(c: FormCollector, raised: bool): B.Stream
      requires Valid(c)
      reads this, currentRequest, c
    {
      B.Stream(terminator, inBuffer, data, chunks, dataSize, currentRequest.rbytes, currentRequest.collector != null,
               c.contentLength, c.maxLength, c.size, c.buffer,
               currentRequest.continued, currentRequest.rejected, raised)
    }

    constructor ()
      ensures currentRequest == null && terminator == B.Unlimited
      ensures inBuffer == [] && data == [] && chunks == [] && dataSize == 0
    {
      currentRequest, terminator, inBuffer, data, chunks, dataSize := null, B.Unlimited, [], [], [], 0;
    }

    /** -1 stands for None; asynchat raises ValueError for any other negative number. */
    method SetTerminator(length: Option<int>) returns (raised: bool)
      modifies `terminator
      ensures raised <==> length.Some? && length.value < -1
      ensures terminator ==
              if raised then old(terminator)
              else if length.None? || length.value == -1 || length.value == 0 then B.Unlimited
              else B.Count(length.value)
    {
      raised := false;
      if length.None? || length.value == -1 || length.value == 0 {
        terminator := B.Unlimited;
      } else if length.value < 0 {
        raised := true;
      } else {
        terminator := B.Count(length.value);
      }
    }

    method Recv() returns (octets: seq<Octet>)
      modifies `data
      ensures octets == Concat(old(data)) && data == []
    {
      octets := [];
      for i := 0 to |data|
        invariant octets == Concat(data[..i])
      {
        assert data[..i + 1][..i] == data[..i];
        octets := octets + data[i];
      }
      assert data[..|data|] == data;
      data := [];
    }

    method SetData(octets: seq<Octet>, size: nat, ghost c: FormCollector) returns (raised: bool)
      requires Valid(c)
      modifies this, currentRequest, c
      ensures Valid(c) && currentRequest == old(currentRequest)
      ensures View(c, raised) == B.SetData(old(View(c, false)), octets, size)
    {
      hide B.HandleRead;
      ghost var s := View(c, false);
      data := data + [octets];
      currentRequest.rbytes := currentRequest.rbytes + size;
      dataSize := dataSize + size;
      chunks := chunks + [size];
      assert View(c, false) ==
             s.(data := s.data + [octets], rbytes := s.rbytes + size,
                dataSize := s.dataSize + size, chunks := s.chunks + [size]);
      raised := HandleRead(c);
    }

    /** The first octets of the buffer are collected; `raised` leaves them there. */
    method Take(k: nat, ghost c: FormCollector) returns (raised: bool)
      requires Valid(c) && k <= |inBuffer|
      modifies `inBuffer, currentRequest`rbytes, c`size, c`buffer
      ensures Valid(c) && View(c, raised) == B.Take(old(View(c, false)), k)
      ensures inBuffer == if raised then old(inBuffer) else old(inBuffer)[k..]
    {
      raised := currentRequest.CollectIncomingData(inBuffer[..k], c);
      if !raised {
        inBuffer := inBuffer[k..];
      }
    }

    /** The buffer up to the count is collected, and the terminator is found. */
    method TakeCount(n: nat, ghost c: FormCollector) returns (raised: bool)
      requires Valid(c) && 0 < n <= |inBuffer|
      modifies `inBuffer, `terminator, currentRequest, c`size, c`buffer
      ensures Valid(c) && (raised || |inBuffer| < old(|inBuffer|))
      ensures View(c, raised) ==
              var s1 := B.Take(old(View(c, false)), n);
              if s1.raised then s1 else B.FoundTerminator(s1.(terminator := B.Count(0)))
    {
      raised := Take(n, c);
      if !raised {
        terminator := B.Count(0);
        currentRequest.FoundTerminator(c);
      }
    }

    /** The buffer up to the delimiter at `k` is collected, and the terminator is found. */
    method TakeDelimited(k: nat, ghost c: FormCollector) returns (raised: bool)
      requires Valid(c) && k + |B.DELIMITER| <= |inBuffer|
      modifies `inBuffer, `terminator, currentRequest, c`size, c`buffer
      ensures Valid(c) && (raised || |inBuffer| < old(|inBuffer|))
      ensures View(c, raised) ==
              var s1 := B.Take(old(View(c, false)), k);
              if s1.raised then s1 else B.FoundTerminator(s1.(inBuffer := old(inBuffer)[k + |B.DELIMITER|..]))
    {
      ghost var octets := inBuffer;
      raised := Take(k, c);
      if !raised {
        inBuffer := inBuffer[|B.DELIMITER|..];
        assert inBuffer == octets[k + |B.DELIMITER|..];
        currentRequest.FoundTerminator(c);
      }
    }

    /** The whole buffer is collected, and the count goes down. */
    method TakePart(n: nat, ghost c: FormCollector) returns (raised: bool)
      requires Valid(c) && |inBuffer| < n
      modifies `inBuffer, `terminator, currentRequest`rbytes, c`size, c`buffer
      ensures Valid(c)
      ensures View(c, raised) ==
              var s := old(View(c, false));
              var s1 := B.Take(s, |s.inBuffer|);
              if s1.raised then s1 else s1.(terminator := B.Count(n - |s.inBuffer|))
    {
      var size := |inBuffer|;
      raised := Take(size, c);
      if !raised {
        terminator := B.Count(n - size);
      }
    }

    /** One iteration of asynchat's loop. */
    method Once(ghost c: FormCollector) returns (raised: bool, last: bool)
      requires Valid(c) && inBuffer != []
      modifies `inBuffer, `terminator, currentRequest, c`size, c`buffer
      ensures Valid(c) && B.Iteration(View(c, raised), last) == B.Once(old(View(c, false)))
    {
      assert View(c, false).inBuffer == inBuffer && View(c, false).terminator == terminator;
      hide B.Take, B.FoundTerminator, B.FindDelimiter, B.PrefixAtEnd, View;
      last := true;
      match terminator
      case Unlimited =>
        raised := Take(|inBuffer|, c);
      case Count(n) =>
        if n == 0 {
          raised := Take(|inBuffer|, c);
        } else if |inBuffer| < n {
          raised := TakePart(n, c);
        } else {
          last := false;
          raised := TakeCount(n, c);
        }
      case Delimiter =>
        var k := B.FindDelimiter(inBuffer);
        if k == |inBuffer| {
          raised := Take(k - B.PrefixAtEnd(inBuffer), c);
        } else {
          last := false;
          raised := TakeDelimited(k, c);
        }
    }

    /** `handle_read` of asynchat. */
    method HandleRead(ghost c: FormCollector) returns (raised: bool)
      requires Valid(c)
      modifies this, currentRequest, c
      ensures Valid(c) && currentRequest == old(currentRequest)
      ensures View(c, raised) == B.HandleRead(old(View(c, false)))
    {
      hide B.Once;
      var octets := Recv();
      inBuffer := inBuffer + octets;
      raised := false;
      var last := false;
      while inBuffer != [] && !raised && !last
        invariant Valid(c) && currentRequest == old(currentRequest)
        invariant (if last then View(c, raised) else B.Drain(View(c, raised))) == B.HandleRead(old(View(c, false)))
        decreases !raised, !last, |inBuffer|
      {
        raised, last := Once(c);
      }
    }

    /** What the handler does for a StreamEnded event. */
    method StreamEnded(ghost c: FormCollector) returns (raised: bool)
      requires Valid(c)
      modifies this, currentRequest, c
      ensures Valid(c) && View(c, raised) == B.End(old(View(c, false)))
    {
      raised := false;
      if currentRequest.collector != null {
        raised := HandleRead(c);
        if !raised {
          currentRequest.FoundTerminator(c);
        }
      }
    }
  }
}
