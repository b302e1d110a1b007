/** The queue of producers: its order, and one scheduling pass over it. */
module ProducerQueue {
  import opened Octets
  import opened Http2Stream
  import opened H2Connection
  import opened Http2Producer

  /** What the log hooks wrote: stream and octet count. */
  type Log = seq<(StreamId, nat)>

  /** What the bodies say of themselves, turn by turn. */
  type Polls = seq<Readiness>

  /** The responses that were handed over, by stream. */
  type Messages = map<StreamId, Message>

  // ----- order ------------------------------------------------------------------------------

  ghost predicate Distinct(q: seq<Producer>) {
    forall i, j :: 0 <= i < j < |q| ==> q[i].sid != q[j].sid
  }

  ghost predicate Sorted(q: seq<Producer>) {
    forall i, j :: 0 <= i < j < |q| ==> Less(q[i], q[j])
  }

  ghost function Ids(q: seq<Producer>): set<StreamId> {
    set p | p in q :: p.sid
  }

  function Insert(p: Producer, q: seq<Producer>): seq<Producer> {
    if q == [] || Less(p, q[0]) then [p] + q else [q[0]] + Insert(p, q[1..])
  }

  /** `list.sort`: the sorted permutation, which is unique (SortIsUnique). */
  function Sort(q: seq<Producer>): seq<Producer> {
    if q == [] then [] else Insert(q[0], Sort(q[1..]))
  }

  lemma LessIsStrictTotalOrder(a: Producer, b: Producer, c: Producer)
    ensures Less(a, b) <==>
              || a.dependsOn < b.dependsOn
              || (a.dependsOn == b.dependsOn && a.priority > b.priority)
              || (a.dependsOn == b.dependsOn && a.priority == b.priority && a.sid < b.sid)
    ensures !Less(a, a)
    ensures Less(a, b) ==> !Less(b, a)
    ensures Less(a, b) && Less(b, c) ==> Less(a, c)
    ensures a.sid != b.sid ==> Less(a, b) || Less(b, a)
  {
  }

  ghost predicate Below(p: Producer, q: seq<Producer>) {
    forall x :: x in q ==> Less(p, x)
  }

  lemma SortedCons(p: Producer, q: seq<Producer>)
    requires Below(p, q) && Sorted(q)
    ensures Sorted([p] + q)
  {
    var s := [p] + q;
    forall i, j | 0 <= i < j < |s| ensures Less(s[i], s[j]) {
      assert s[j] == q[j - 1] && q[j - 1] in q;
      if i > 0 { assert s[i] == q[i - 1]; }
    }
  }

  lemma SortedUncons(q: seq<Producer>)
    requires Sorted(q) && q != []
    ensures Below(q[0], q[1..]) && Sorted(q[1..])
  {
    forall x | x in q[1..] ensures Less(q[0], x) {
      var j :| 0 <= j < |q[1..]| && q[1..][j] == x;
      assert Less(q[0], q[j + 1]);
    }
  }

  lemma {:induction false} InsertMembers(p: Producer, q: seq<Producer>)
    ensures multiset(Insert(p, q)) == multiset{p} + multiset(q)
    ensures forall x :: x in Insert(p, q) <==> x == p || x in q
    ensures |Insert(p, q)| == |q| + 1
  {
    if q != [] {
      assert q == [q[0]] + q[1..];
      InsertMembers(p, q[1..]);
    }
  }

  lemma {:induction false} InsertSorted(p: Producer, q: seq<Producer>)
    requires p.sid !in Ids(q) && Sorted(q)
    ensures Sorted(Insert(p, q))
  {
    if q == [] {
    } else if Less(p, q[0]) {
      SortedUncons(q);
      forall x | x in q ensures Less(p, x) {
        assert x == q[0] || x in q[1..];
        LessIsStrictTotalOrder(p, q[0], x);
      }
      SortedCons(p, q);
    } else {
      SortedUncons(q);
      assert q[0].sid in Ids(q);
      InsertSorted(p, q[1..]);
      InsertMembers(p, q[1..]);
      assert Below(q[0], Insert(p, q[1..]));
      SortedCons(q[0], Insert(p, q[1..]));
    }
  }

  lemma {:induction false} InsertDistinct(p: Producer, q: seq<Producer>)
    requires p.sid !in Ids(q) && Distinct(q)
    ensures Distinct(Insert(p, q))
  {
    hide Less;
    if q != [] && !Less(p, q[0]) {
      InsertDistinct(p, q[1..]);
      InsertMembers(p, q[1..]);
      assert q[0].sid in Ids(q);
      var s, t := Insert(p, q), Insert(p, q[1..]);
      forall i, j | 0 <= i < j < |s| ensures s[i].sid != s[j].sid {
        assert s[j] == t[j - 1] && t[j - 1] in t;
        if i > 0 { assert s[i] == t[i - 1]; }
      }
    } else {
      forall x | x in q ensures x.sid != p.sid { assert x.sid in Ids(q); }
    }
  }

  lemma {:induction false} SortFacts(q: seq<Producer>)
    ensures multiset(Sort(q)) == multiset(q)
    ensures forall x :: x in Sort(q) <==> x in q
    ensures |Sort(q)| == |q|
    ensures Distinct(q) ==> Sorted(Sort(q)) && Distinct(Sort(q))
  {
    if q != [] {
      hide Less, Sorted;
      SortFacts(q[1..]);
      InsertMembers(q[0], Sort(q[1..]));
      assert q == [q[0]] + q[1..];
      if Distinct(q) {
        assert Distinct(q[1..]);
        NewToSorted(q, Sort(q[1..]));
        InsertSorted(q[0], Sort(q[1..]));
        InsertDistinct(q[0], Sort(q[1..]));
      }
    }
  }

  lemma NewToSorted(q: seq<Producer>, sorted: seq<Producer>)
    requires q != [] && Distinct(q) && forall x :: x in sorted <==> x in q[1..]
    ensures q[0].sid !in Ids(sorted)
  {
    forall x | x in sorted ensures x.sid != q[0].sid {
      assert x in q[1..];
    }
  }

  lemma HeadsAgree(a: seq<Producer>, b: seq<Producer>)
    requires Sorted(a) && Sorted(b) && a != [] && b != []
    requires a[0] in b && b[0] in a
    ensures a[0] == b[0]
  {
    if a[0] != b[0] {
      SortedUncons(a);
      SortedUncons(b);
      assert a[0] in b[1..] && b[0] in a[1..];
      LessIsStrictTotalOrder(a[0], b[0], a[0]);
    }
  }

  lemma {:induction false} SortIsUnique(a: seq<Producer>, b: seq<Producer>)
    requires Sorted(a) && Sorted(b) && multiset(a) == multiset(b)
    ensures a == b
  {
    hide Less, Sorted;
    assert |multiset(a)| == |a| && |multiset(b)| == |b|;
    if a != [] {
      assert a[0] in multiset(a) && b[0] in multiset(b);
      HeadsAgree(a, b);
      SortedUncons(a);
      SortedUncons(b);
      TailsAgree(a, b);
      SortIsUnique(a[1..], b[1..]);
      assert a == [a[0]] + a[1..] && b == [b[0]] + b[1..];
    }
  }

  lemma TailsAgree(a: seq<Producer>, b: seq<Producer>)
    requires a != [] && b != [] && a[0] == b[0] && multiset(a) == multiset(b)
    ensures multiset(a[1..]) == multiset(b[1..])
  {
    assert a == [a[0]] + a[1..] && b == [b[0]] + b[1..];
    assert multiset(a[1..]) == multiset(a) - multiset{a[0]};
    assert multiset(b[1..]) == multiset(b) - multiset{b[0]};
  }

  // ----- one pass -----------------------------------------------------------------------------

  /** Exceptions that leave a method of the handler. `EmptyPop` is the IndexError of `pop (0)` on an
      empty list, `WindowRefused` h2's FlowControlError, with the stream that lost something by it,
      `NoChannel` a push on a lost channel. */
  datatype Fault = NoFault | EmptyPop | WindowRefused(lost: set<StreamId>) | NoChannel

  /** The streams that have lost octets, or their end, in a refused call. */
  function Hurt(hurt: set<StreamId>, f: Fault): set<StreamId> {
    if f.WindowRefused? then hurt + f.lost else hurt
  }

  function LostBy(p: Producer, s: Outcome): set<StreamId> {
    if Lost(p, s) then {p.sid} else {}
  }

  /** `frames` were sent in this order. `finished` is what the pass returns, unless it raises. */
  datatype Pass = Pass(queue: seq<Producer>, frames: seq<Frame>, log: Log, finished: seq<StreamId>, fault: Fault)

  /** The answers of `ready` in each iteration; bodies asked later than recorded are ready. */
  function At(polls: Polls, i: nat): Readiness {
    if i < |polls| then polls[i] else Readiness(true, true)
  }

  function Rotate(q: seq<Producer>): seq<Producer>
    requires q != []
  {
    if |q| != 1 then q[1..] + [q[0]] else q
  }

  /** What the producer at the head does to the connection and to the log. */
  function LogOf(s: Outcome): Log {
    if s.logged then [(s.p.sid, s.p.sent)] else []
  }

  function AfterTurn(q: seq<Producer>, s: Outcome): seq<Producer>
    requires q != []
  {
    if s.p.ended then q[1..] else [s.p] + q[1..]
  }

  /** Iterations i..n of the loop of `_data_from_producers`. */
  function RunPass(q: seq<Producer>, c: Conn, polls: Polls, i: nat, n: nat): Pass
    requires i <= n
    decreases n - i, 1
  {
    if i == n then Pass(q, [], [], [], NoFault)
    else if q == [] then Pass(q, [], [], [], EmptyPop)
    else Continue(q, c, Turn(q[0], c.Window(q[0].sid), At(polls, i)), polls, i, n)
  }

  /** The rest of iteration i, once `produce` has returned. */
  function Continue(q: seq<Producer>, c: Conn, s: Outcome, polls: Polls, i: nat, n: nat): Pass
    requires i < n && q != []
    decreases n - i, 0
  {
    if s.refused then Pass([s.p] + q[1..], s.frames, LogOf(s), [], WindowRefused(LostBy(q[0], s)))
    else
      var finished := if s.p.ended then [s.p.sid] else [];
      if s.produced then Pass(AfterTurn(q, s), s.frames, LogOf(s), finished, NoFault)
      else if AfterTurn(q, s) == [] then Pass([], s.frames, LogOf(s), finished, EmptyPop)
      else
        var rest := RunPass(Rotate(AfterTurn(q, s)), c.AppendAll(s.frames), polls, i + 1, n);
        rest.(frames := s.frames + rest.frames, log := LogOf(s) + rest.log, finished := finished + rest.finished)
  }

  /** `_data_from_producers` */
  function DataFromProducers(q: seq<Producer>, c: Conn, polls: Polls): Pass {
    RunPass(q, c, polls, 0, |q|)
  }

  // ----- what a pass keeps ----------------------------------------------------------------------

  function Logged(log: Log, sid: StreamId): seq<nat> {
    if log == [] then [] else
      Logged(log[..|log| - 1], sid) + (if log[|log| - 1].0 == sid then [log[|log| - 1].1] else [])
  }

  lemma {:induction false} LoggedAppend(a: Log, b: Log, sid: StreamId)
    ensures Logged(a + b, sid) == Logged(a, sid) + Logged(b, sid)
  {
    if b == [] {
      assert a + b == a;
    } else {
      assert (a + b)[..|a + b| - 1] == a + b[..|b| - 1];
      LoggedAppend(a, b[..|b| - 1], sid);
    }
  }

  /** A stream whose response nobody queues any more: the client has all of it and it was logged
      once with its length, or it was broken off and never logged. */
  predicate Settled(m: Message, r: Reader, entries: seq<nat>) {
    (Complete(m, r) && entries == [|Content(m)|]) || (Partial(m, r) && entries == [])
  }

  /** A stream that has lost something: it never ends, or ends short. Logged as if it were whole. */
  predicate Broken(m: Message, r: Reader, entries: seq<nat>) {
    || (r.Open? && r.headers == m.headers && entries == [])
    || (Short(m, r) && entries == [|Content(m)|])
  }

  /** What every client can rely on, whatever happens; no frame without a response. */
  ghost predicate ClientsOk(h: Messages, hurt: set<StreamId>, wire: seq<Frame>, log: Log) {
    forall sid :: ClientOk(h, hurt, wire, log, sid)
  }

  ghost predicate ClientOk(h: Messages, hurt: set<StreamId>, wire: seq<Frame>, log: Log, sid: StreamId) {
    var r, entries := Read(Proj(wire, sid)), Logged(log, sid);
    if sid !in h then r == Idle && entries == [] && sid !in hurt
    else if sid in hurt then Broken(h[sid], r, entries)
    else Settled(h[sid], r, entries)
  }

  /** How a queued producer and its client stand to each other. */
  predicate Relates(m: Message, hurt: bool, p: Producer, r: Reader) {
    if hurt then Damaged(m, p, r) else Tracks(m, p, r)
  }

  ghost predicate Queued(h: Messages, hurt: set<StreamId>, p: Producer, wire: seq<Frame>, log: Log) {
    p.sid in h && Relates(h[p.sid], p.sid in hurt, p, Read(Proj(wire, p.sid))) && Logged(log, p.sid) == []
  }

  ghost predicate QueueOk(h: Messages, hurt: set<StreamId>, q: seq<Producer>, wire: seq<Frame>, log: Log) {
    && Distinct(q)
    && (forall p :: p in q ==> Queued(h, hurt, p, wire, log))
    && ClientsOk(h, hurt, wire, log)
  }

  lemma TracksIsPartial(m: Message, p: Producer, r: Reader)
    requires Tracks(m, p, r)
    ensures Partial(m, r)
  {
    if r.Open? {
      assert Content(m)[..|r.got|] == r.got;
    }
  }

  lemma ReadStep(wire: seq<Frame>, fs: seq<Frame>, sid: StreamId, own: StreamId)
    requires forall f :: f in fs ==> Carries(f) && f.sid == own
    ensures Proj(fs, sid) == if sid == own then fs else []
    ensures Read(Proj(wire + fs, sid)) ==
            if sid == own then AcceptAll(Read(Proj(wire, sid)), fs) else Read(Proj(wire, sid))
  {
    ProjOwn(fs, sid, own);
    ProjAppend(wire, fs, sid);
    if sid == own {
      ReadAppend(Proj(wire, sid), fs);
    } else {
      assert Proj(wire, sid) + [] == Proj(wire, sid);
    }
  }

  lemma {:induction false} ProjOwn(fs: seq<Frame>, sid: StreamId, own: StreamId)
    requires forall f :: f in fs ==> Carries(f) && f.sid == own
    ensures Proj(fs, sid) == if sid == own then fs else []
  {
    if fs != [] {
      ProjOwn(fs[..|fs| - 1], sid, own);
      assert fs[|fs| - 1] in fs;
      assert fs == fs[..|fs| - 1] + [fs[|fs| - 1]];
    }
  }

  /** All that the queue needs to know about one turn of a producer. */
  ghost predicate GoodStep(m: Message, hurt: bool, p: Producer, r: Reader, s: Outcome) {
    var r' := AcceptAll(r, s.frames);
    && s.p.sid == p.sid
    && (forall f :: f in s.frames ==> Carries(f) && f.sid == p.sid)
    && (s.logged ==> s.produced)
    && (!s.refused && !s.produced ==> s.p == p && s.frames == [] && !s.logged)
    && if s.refused then
         !p.ended && !s.logged && Relates(m, hurt || Lost(p, s), s.p, r') && (s.p.ended ==> hurt || Lost(p, s))
       else if p.ended then s.p == p && s.frames == [] && !s.logged
       else
         && (s.p.ended <==> s.logged)
         && if s.logged then s.p.sent == |Content(m)| && (if hurt then Short(m, r') else Complete(m, r'))
            else Relates(m, hurt, s.p, r')
  }

  lemma TurnIsGood(m: Message, hurt: bool, p: Producer, r: Reader, w: int, rd: Readiness)
    requires Relates(m, hurt, p, r)
    ensures GoodStep(m, hurt, p, r, Turn(p, w, rd))
  {
    hide Turn, AcceptAll, Damaged, Tracks, Content;
    OwnStreamOnly(p, w, rd);
    RelatedIsWaiting(m, hurt, p, r);
    TurnProgress(p, w, rd);
    if p.ended {
      EndedTurn(p, w, rd);
    } else if hurt {
      DamagedTurn(m, p, r, w, rd);
    } else if Turn(p, w, rd).refused {
      RefusedLoses(m, p, r, w, rd);
    } else {
      TurnTracks(m, p, r, w, rd);
    }
  }

  lemma EndedTurn(p: Producer, w: int, rd: Readiness)
    requires p.ended
    ensures Turn(p, w, rd) == Outcome(p, [], false, false, false)
  {
  }

  lemma RelatedIsWaiting(m: Message, hurt: bool, p: Producer, r: Reader)
    requires Relates(m, hurt, p, r)
    ensures p.ended || Waiting(p)
  {
  }

  lemma LogStep(log: Log, s: Outcome, sid: StreamId)
    ensures Logged(log + LogOf(s), sid) == Logged(log, sid) + (if s.logged && s.p.sid == sid then [s.p.sent] else [])
  {
    LoggedAppend(log, LogOf(s), sid);
    if s.logged {
      assert LogOf(s)[..0] == [];
    }
  }

  lemma StepClient(h: Messages, hurt: set<StreamId>, p: Producer, wire: seq<Frame>, log: Log,
                   s: Outcome, sid: StreamId)
    requires Queued(h, hurt, p, wire, log) && ClientOk(h, hurt, wire, log, sid)
    requires GoodStep(h[p.sid], p.sid in hurt, p, Read(Proj(wire, p.sid)), s)
    ensures ClientOk(h, hurt + LostBy(p, s), wire + s.frames, log + LogOf(s), sid)
  {
    ReadStep(wire, s.frames, sid, p.sid);
    LogStep(log, s, sid);
    if sid == p.sid {
      var r := Read(Proj(wire, sid));
      var r' := AcceptAll(r, s.frames);
      hide AcceptAll, Read, Proj, Logged, Content;
      StepSettles(h[sid], sid in hurt, p, r, s, r');
    }
  }

  /** What the client of the head of the queue holds after its turn, when nothing was logged before. */
  lemma StepSettles(m: Message, hurt: bool, p: Producer, r: Reader, s: Outcome, r': Reader)
    requires Relates(m, hurt, p, r) && r' == AcceptAll(r, s.frames) && GoodStep(m, hurt, p, r, s)
    ensures var entries := if s.logged then [s.p.sent] else [];
            if hurt || Lost(p, s) then Broken(m, r', entries) else Settled(m, r', entries)
  {
    if !hurt {
      TracksIsPartial(m, p, r);
      if !s.logged && !p.ended && !Lost(p, s) {
        TracksIsPartial(m, s.p, r');
      }
    }
    assert AcceptAll(r, []) == r;
  }

  /** The queue after the turn of its head, before it is rotated. */
  function NextQueue(q: seq<Producer>, s: Outcome): seq<Producer>
    requires q != []
  {
    if s.refused then [s.p] + q[1..] else AfterTurn(q, s)
  }

  /** One turn of the head of the queue. */
  lemma StepQueue(h: Messages, hurt: set<StreamId>, q: seq<Producer>, wire: seq<Frame>, log: Log,
                  s: Outcome)
    requires q != [] && QueueOk(h, hurt, q, wire, log)
    requires q[0].sid in h && GoodStep(h[q[0].sid], q[0].sid in hurt, q[0], Read(Proj(wire, q[0].sid)), s)
    ensures QueueOk(h, hurt + LostBy(q[0], s), NextQueue(q, s), wire + s.frames, log + LogOf(s))
  {
    var p, hurt' := q[0], hurt + LostBy(q[0], s);
    assert Queued(h, hurt, p, wire, log);
    forall sid ensures ClientOk(h, hurt', wire + s.frames, log + LogOf(s), sid) {
      assert ClientOk(h, hurt, wire, log, sid);
      StepClient(h, hurt, p, wire, log, s, sid);
    }
    forall x | x in NextQueue(q, s) ensures Queued(h, hurt', x, wire + s.frames, log + LogOf(s)) {
      if x in q[1..] {
        assert x in q && x.sid != p.sid;
        StaysQueued(h, hurt, p, x, wire, log, s);
      } else {
        hide ClientsOk;
        ReadStep(wire, s.frames, x.sid, p.sid);
        LogStep(log, s, x.sid);
        hide AcceptAll, Read, Proj, Logged;
      }
    }
  }

  /** A producer that waits while another one acts. */
  lemma StaysQueued(h: Messages, hurt: set<StreamId>, p: Producer, x: Producer, wire: seq<Frame>,
                    log: Log, s: Outcome)
    requires p.sid in h && GoodStep(h[p.sid], p.sid in hurt, p, Read(Proj(wire, p.sid)), s)
    requires Queued(h, hurt, x, wire, log) && x.sid != p.sid
    ensures Queued(h, hurt + LostBy(p, s), x, wire + s.frames, log + LogOf(s))
  {
    ReadStep(wire, s.frames, x.sid, p.sid);
    LogStep(log, s, x.sid);
    hide AcceptAll, Read, Proj, Logged;
  }

  lemma RotateFacts(q: seq<Producer>)
    requires q != []
    ensures forall x :: x in Rotate(q) <==> x in q
    ensures Distinct(q) ==> Distinct(Rotate(q))
    ensures Ids(Rotate(q)) == Ids(q)
  {
    assert q == [q[0]] + q[1..];
  }

  lemma RotateKeeps(h: Messages, hurt: set<StreamId>, q: seq<Producer>, wire: seq<Frame>, log: Log)
    requires q != [] && QueueOk(h, hurt, q, wire, log)
    ensures QueueOk(h, hurt, Rotate(q), wire, log)
  {
    RotateFacts(q);
  }

  lemma {:induction false} PassKeeps(h: Messages, hurt: set<StreamId>, q: seq<Producer>, c: Conn,
                                     log: Log, polls: Polls, i: nat, n: nat)
    requires i <= n && QueueOk(h, hurt, q, c.wire, log)
    ensures var r := RunPass(q, c, polls, i, n);
            QueueOk(h, Hurt(hurt, r.fault), r.queue, c.wire + r.frames, log + r.log)
    decreases n - i, 1
  {
    hide Continue;
    assert log + [] == log && c.wire + [] == c.wire;
    if i < n && q != [] {
      var p := q[0];
      assert Queued(h, hurt, p, c.wire, log);
      TurnIsGood(h[p.sid], p.sid in hurt, p, Read(Proj(c.wire, p.sid)), c.Window(p.sid), At(polls, i));
      ContinueKeeps(h, hurt, q, c, log, Turn(p, c.Window(p.sid), At(polls, i)), polls, i, n);
    }
  }

  lemma {:induction false} ContinueKeeps(h: Messages, hurt: set<StreamId>, q: seq<Producer>, c: Conn,
                                         log: Log, s: Outcome, polls: Polls, i: nat, n: nat)
    requires i < n && q != [] && QueueOk(h, hurt, q, c.wire, log)
    requires q[0].sid in h && GoodStep(h[q[0].sid], q[0].sid in hurt, q[0], Read(Proj(c.wire, q[0].sid)), s)
    ensures var r := Continue(q, c, s, polls, i, n);
            QueueOk(h, Hurt(hurt, r.fault), r.queue, c.wire + r.frames, log + r.log)
    decreases n - i, 0
  {
    hide RunPass, ClientsOk, QueueOk, GoodStep;
    StepQueue(h, hurt, q, c.wire, log, s);
    AppendAllFacts(c, s.frames);
    assert !s.refused ==> hurt + LostBy(q[0], s) == hurt;
    if !s.refused && !s.produced && AfterTurn(q, s) != [] {
      var next, c' := Rotate(AfterTurn(q, s)), c.AppendAll(s.frames);
      RotateKeeps(h, hurt, AfterTurn(q, s), c'.wire, log + LogOf(s));
      PassKeeps(h, hurt, next, c', log + LogOf(s), polls, i + 1, n);
      var rest := RunPass(next, c', polls, i + 1, n);
      Associative(log, LogOf(s), rest.log);
      Associative(c.wire, s.frames, rest.frames);
    }
  }

  /** A stream whose producer, if it is still queued, was ended from outside. */
  ghost predicate Silent(q: seq<Producer>, sid: StreamId) {
    forall p :: p in q && p.sid == sid ==> p.ended
  }

  /** Bookkeeping of a pass: nobody enters the queue, or is ended in it unless its stream is lost; who
      leaves it is reported; who is reported was ended before or is logged now; silent streams stay
      silent; a pass that raises logs nothing. */
  ghost predicate PassShape(q: seq<Producer>, r: Pass) {
    && (forall x :: x in r.queue ==> x.sid in Ids(q) && (x.ended ==> x in q || x.sid in Hurt({}, r.fault)))
    && (forall x :: x in r.queue ==> x in q || !Silent(q, x.sid))
    && Ids(q) == Ids(r.queue) + (set sid | sid in r.finished)
    && (r.fault != NoFault ==> r.log == [])
    && (forall sid :: sid in Hurt({}, r.fault) ==> sid in Ids(q) && !Silent(q, sid))
    && (forall sid :: sid in r.finished ==>
          sid in Ids(q) && sid !in Ids(r.queue) && (Silent(q, sid) || Logged(r.log, sid) != []))
    && (forall sid :: Logged(r.log, sid) != [] ==> sid in Ids(q) && sid in r.finished && !Silent(q, sid))
    && (forall f :: f in r.frames ==> Carries(f) && f.sid in Ids(q) && !Silent(q, f.sid))
  }

  lemma {:induction false} PassIsShaped(h: Messages, hurt: set<StreamId>, q: seq<Producer>, c: Conn, log: Log,
                                        polls: Polls, i: nat, n: nat)
    requires i <= n && QueueOk(h, hurt, q, c.wire, log)
    ensures PassShape(q, RunPass(q, c, polls, i, n))
    decreases n - i, 1
  {
    if i < n && q != [] {
      var p := q[0];
      assert Queued(h, hurt, p, c.wire, log);
      TurnIsGood(h[p.sid], p.sid in hurt, p, Read(Proj(c.wire, p.sid)), c.Window(p.sid), At(polls, i));
      ContinueIsShaped(h, hurt, q, c, log, Turn(p, c.Window(p.sid), At(polls, i)), polls, i, n);
    }
  }

  lemma {:induction false} ContinueIsShaped(h: Messages, hurt: set<StreamId>, q: seq<Producer>, c: Conn, log: Log,
                                            s: Outcome, polls: Polls, i: nat, n: nat)
    requires i < n && q != [] && QueueOk(h, hurt, q, c.wire, log)
    requires q[0].sid in h && GoodStep(h[q[0].sid], q[0].sid in hurt, q[0], Read(Proj(c.wire, q[0].sid)), s)
    ensures PassShape(q, Continue(q, c, s, polls, i, n))
    decreases n - i, 0
  {
    hide RunPass, ClientsOk;
    var p, r := q[0], Continue(q, c, s, polls, i, n);
    HeadAndTail(q);
    if s.refused || s.produced || AfterTurn(q, s) == [] {
      LastTurnIsShaped(q, s, r);
    } else {
      var q' := AfterTurn(q, s);
      var next, rest := Rotate(q'), RunPass(Rotate(q'), c.AppendAll(s.frames), polls, i + 1, n);
      StepQueue(h, hurt, q, c.wire, log, s);
      AppendAllFacts(c, s.frames);
      assert hurt + LostBy(p, s) == hurt;
      RotateFacts(q');
      PassIsShaped(h, hurt, next, c.AppendAll(s.frames), log + LogOf(s), polls, i + 1, n);
      assert LogOf(s) + rest.log == rest.log && s.frames + rest.frames == rest.frames;
      if p.ended {
        EndedIsSkipped(q, next, rest);
      } else {
        assert q' == q && [] + rest.finished == rest.finished;
        SameMembers(q, next, rest);
      }
    }
  }

  lemma SameMembers(q: seq<Producer>, next: seq<Producer>, rest: Pass)
    requires PassShape(next, rest) && forall x :: x in next <==> x in q
    ensures PassShape(q, rest)
  {
    assert Ids(q) == Ids(next);
    assert forall sid :: Silent(next, sid) <==> Silent(q, sid);
  }

  lemma EndedIsSkipped(q: seq<Producer>, next: seq<Producer>, rest: Pass)
    requires q != [] && Distinct(q) && q[0].ended
    requires PassShape(next, rest) && forall x :: x in next <==> x in q[1..]
    ensures PassShape(q, rest.(finished := [q[0].sid] + rest.finished))
  {
    HeadAndTail(q);
    assert Ids(next) == Ids(q[1..]);
    assert forall sid :: sid in Ids(next) ==> (Silent(next, sid) <==> Silent(q, sid)) by {
      forall sid | sid in Ids(next) ensures Silent(next, sid) <==> Silent(q, sid) {
        assert sid != q[0].sid;
      }
    }
    assert Silent(q, q[0].sid);
    var f := [q[0].sid] + rest.finished;
    assert forall sid :: sid in f <==> sid == q[0].sid || sid in rest.finished;
  }

  lemma HeadAndTail(q: seq<Producer>)
    requires q != [] && Distinct(q)
    ensures forall x :: x in q <==> x == q[0] || x in q[1..]
    ensures Ids(q) == {q[0].sid} + Ids(q[1..]) && q[0].sid !in Ids(q[1..])
  {
    assert q == [q[0]] + q[1..];
  }

  /** What `LastTurnIsShaped` needs of the turn of the head. */
  ghost predicate HeadTurn(q: seq<Producer>, s: Outcome)
    requires q != []
  {
    && s.p.sid == q[0].sid
    && (forall f :: f in s.frames ==> Carries(f) && f.sid == q[0].sid)
    && (s.logged ==> !s.refused && s.p.ended)
    && (!s.refused && !q[0].ended ==> (s.p.ended <==> s.logged))
    && (q[0].ended && !s.refused ==> s.p == q[0] && s.frames == [] && !s.logged)
    && (!s.refused && !s.produced ==> s.p == q[0] && s.frames == [] && !s.logged)
    && (s.refused ==> !q[0].ended)
    && (s.logged ==> s.produced)
    && (s.refused && s.p.ended ==> Lost(q[0], s))
  }

  lemma LastTurnIsShaped(q: seq<Producer>, s: Outcome, r: Pass)
    requires q != [] && Distinct(q) && HeadTurn(q, s)
    requires s.refused || s.produced || AfterTurn(q, s) == []
    requires r == if s.refused then Pass([s.p] + q[1..], s.frames, LogOf(s), [], WindowRefused(LostBy(q[0], s)))
                  else Pass(AfterTurn(q, s), s.frames, LogOf(s), if s.p.ended then [s.p.sid] else [],
                            if s.produced then NoFault else EmptyPop)
    ensures PassShape(q, r)
  {
    HeadAndTail(q);
    LoggedOnce(s);
    assert !q[0].ended ==> !Silent(q, q[0].sid);
    if s.refused || !s.p.ended {
      HeadStays(q, s, r);
    } else {
      HeadLeaves(q, s, r);
    }
  }

  lemma LoggedOnce(s: Outcome)
    ensures forall sid :: Logged(LogOf(s), sid) == if s.logged && sid == s.p.sid then [s.p.sent] else []
  {
    forall sid ensures Logged(LogOf(s), sid) == if s.logged && sid == s.p.sid then [s.p.sent] else [] {
      LogStep([], s, sid);
      assert [] + LogOf(s) == LogOf(s);
    }
  }

  lemma HeadStays(q: seq<Producer>, s: Outcome, r: Pass)
    requires q != [] && Distinct(q) && HeadTurn(q, s) && (s.refused || !s.p.ended) && !q[0].ended
    requires r == Pass([s.p] + q[1..], s.frames, [], [], if s.refused then WindowRefused(LostBy(q[0], s)) else NoFault)
    ensures PassShape(q, r)
  {
    HeadAndTail(q);
    assert Ids(r.queue) == Ids(q);
    assert q[0] in q;
    assert (set sid | sid in r.finished) == {};
  }

  lemma HeadLeaves(q: seq<Producer>, s: Outcome, r: Pass)
    requires q != [] && Distinct(q) && HeadTurn(q, s) && !s.refused && s.p.ended
    requires r == Pass(q[1..], s.frames, LogOf(s), [s.p.sid], if s.produced then NoFault else EmptyPop)
    requires forall sid :: Logged(LogOf(s), sid) == if s.logged && sid == s.p.sid then [s.p.sent] else []
    ensures PassShape(q, r)
  {
    HeadAndTail(q);
    assert q[0] in q;
    assert (set sid | sid in r.finished) == {q[0].sid};
    assert q[0].ended ==> Silent(q, q[0].sid);
  }

  // ----- the pass as a rotation ---------------------------------------------------------------------

  /** `produce` of the producer queued at `i`, when it is asked in iteration `i`. */
  function TurnAt(q: seq<Producer>, c: Conn, polls: Polls, i: nat): Outcome
    requires i < |q|
  {
    Turn(q[i], c.Window(q[i].sid), At(polls, i))
  }

  predicate Acts(s: Outcome) {
    s.produced || s.refused
  }

  /** The first producer in queue order that does anything. */
  function FirstActive(q: seq<Producer>, c: Conn, polls: Polls, i: nat): (k: nat)
    requires i <= |q|
    ensures i <= k <= |q|
    ensures forall j :: i <= j < k ==> !Acts(TurnAt(q, c, polls, j))
    ensures k < |q| ==> Acts(TurnAt(q, c, polls, k))
    decreases |q| - i
  {
    if i == |q| || Acts(TurnAt(q, c, polls, i)) then i else FirstActive(q, c, polls, i + 1)
  }

  /** A pass over waiting producers: the first that can act does, and stays at the head until it
      ends, with those tried before it behind; if nobody can, the queue is as it was. */
  ghost predicate Rotated(q: seq<Producer>, c: Conn, polls: Polls, r: Pass) {
    var k := FirstActive(q, c, polls, 0);
    if k == |q| then r == Pass(q, [], [], [], NoFault)
    else
      var s := TurnAt(q, c, polls, k);
      var over := s.p.ended && !s.refused;
      && r.queue == (if over then [] else [s.p]) + q[k + 1..] + q[..k]
      && r.frames == s.frames && r.log == LogOf(s)
      && r.finished == (if over then [s.p.sid] else [])
      && r.fault == if s.refused then WindowRefused(LostBy(q[k], s)) else NoFault
  }

  lemma PassIsRotation(q: seq<Producer>, c: Conn, polls: Polls)
    requires forall p :: p in q ==> Waiting(p)
    ensures Rotated(q, c, polls, DataFromProducers(q, c, polls))
  {
    assert q[0..] + q[..0] == q;
    RotationFrom(q, c, polls, 0);
  }

  lemma {:induction false} RotationFrom(q: seq<Producer>, c: Conn, polls: Polls, i: nat)
    requires i <= |q| && forall p :: p in q ==> Waiting(p)
    requires FirstActive(q, c, polls, 0) == FirstActive(q, c, polls, i)
    ensures Rotated(q, c, polls, RunPass(q[i..] + q[..i], c, polls, i, |q|))
    decreases |q| - i
  {
    var now := q[i..] + q[..i];
    if i == |q| {
      assert now == q;
    } else {
      var s := TurnAt(q, c, polls, i);
      TurnProgress(q[i], c.Window(q[i].sid), At(polls, i));
      hide Turn;
      assert now[0] == q[i];
      assert RunPass(now, c, polls, i, |q|) == Continue(now, c, s, polls, i, |q|);
      if Acts(s) {
        ActiveTurn(q, c, s, polls, i);
      } else {
        IdleTurn(q, c, s, polls, i);
        RotationFrom(q, c, polls, i + 1);
      }
    }
  }

  lemma IdleTurn(q: seq<Producer>, c: Conn, s: Outcome, polls: Polls, i: nat)
    requires i < |q| && !q[i].ended && s == Outcome(q[i], [], false, false, false)
    ensures Continue(q[i..] + q[..i], c, s, polls, i, |q|) == RunPass(q[i + 1..] + q[..i + 1], c, polls, i + 1, |q|)
  {
    var now := q[i..] + q[..i];
    assert now[1..] == q[i + 1..] + q[..i] && [s.p] + now[1..] == now;
    assert Rotate(now) == q[i + 1..] + q[..i + 1];
    assert c.AppendAll([]) == c;
    var rest := RunPass(Rotate(now), c, polls, i + 1, |q|);
    assert LogOf(s) + rest.log == rest.log && s.frames + rest.frames == rest.frames
           && [] + rest.finished == rest.finished;
  }

  lemma ActiveTurn(q: seq<Producer>, c: Conn, s: Outcome, polls: Polls, i: nat)
    requires i < |q| && Acts(s) && !(s.produced && s.refused)
    ensures var r, over := Continue(q[i..] + q[..i], c, s, polls, i, |q|), s.p.ended && !s.refused;
            r == Pass((if over then [] else [s.p]) + q[i + 1..] + q[..i], s.frames, LogOf(s),
                      if over then [s.p.sid] else [],
                      if s.refused then WindowRefused(LostBy(q[i], s)) else NoFault)
  {
    var now := q[i..] + q[..i];
    assert now[1..] == q[i + 1..] + q[..i];
    assert [s.p] + q[i + 1..] + q[..i] == [s.p] + now[1..];
    assert [] + q[i + 1..] + q[..i] == now[1..];
  }

  // ----- when the pass raises -------------------------------------------------------------------------

  ghost predicate AllEnded(q: seq<Producer>) {
    forall p :: p in q ==> p.ended
  }

  /** The rotation pops from an empty list exactly when something is queued and everything queued was
      ended before the pass. */
  lemma EmptyPopIff(q: seq<Producer>, c: Conn, polls: Polls)
    requires forall p :: p in q ==> p.ended || Waiting(p)
    ensures DataFromProducers(q, c, polls).fault == EmptyPop <==> q != [] && AllEnded(q)
  {
    if q != [] && AllEnded(q) {
      AllEndedPops(q, c, polls, 0, |q|);
    } else {
      SomeoneWaitingSaves(q, c, polls, 0, |q|);
    }
  }

  lemma {:induction false} AllEndedPops(q: seq<Producer>, c: Conn, polls: Polls, i: nat, n: nat)
    requires q != [] && AllEnded(q) && i + |q| == n
    ensures RunPass(q, c, polls, i, n).fault == EmptyPop
    decreases n - i
  {
    assert q[0].ended && c.AppendAll([]) == c;
    if |q| > 1 {
      RotateFacts(q[1..]);
      AllEndedPops(Rotate(q[1..]), c, polls, i + 1, n);
    }
  }

  lemma {:induction false} SomeoneWaitingSaves(q: seq<Producer>, c: Conn, polls: Polls, i: nat, n: nat)
    requires i <= n && (q == [] ==> i == n) && (q != [] ==> !AllEnded(q))
    requires forall p :: p in q ==> p.ended || Waiting(p)
    ensures RunPass(q, c, polls, i, n).fault != EmptyPop
    decreases n - i
  {
    if i < n {
      var s := Turn(q[0], c.Window(q[0].sid), At(polls, i));
      if !Acts(s) {
        TurnProgress(q[0], c.Window(q[0].sid), At(polls, i));
        assert q == [q[0]] + q[1..] && c.AppendAll([]) == c;
        var w :| w in q && !w.ended;
        assert w in AfterTurn(q, s);
        RotateFacts(AfterTurn(q, s));
        SomeoneWaitingSaves(Rotate(AfterTurn(q, s)), c, polls, i + 1, n);
      }
    }
  }

  lemma {:induction false} PassFaults(q: seq<Producer>, c: Conn, polls: Polls, i: nat, n: nat)
    requires i <= n
    ensures RunPass(q, c, polls, i, n).fault != NoChannel
    decreases n - i
  {
    if i < n && q != [] {
      var s := Turn(q[0], c.Window(q[0].sid), At(polls, i));
      if !Acts(s) && AfterTurn(q, s) != [] {
        PassFaults(Rotate(AfterTurn(q, s)), c.AppendAll(s.frames), polls, i + 1, n);
      }
    }
  }

  // ----- flow control over a pass --------------------------------------------------------------------

  lemma {:induction false} PassFits(q: seq<Producer>, c: Conn, polls: Polls, i: nat, n: nat)
    requires i <= n
    ensures Fits(c, RunPass(q, c, polls, i, n).frames, 16384)
    decreases n - i
  {
    if i < n && q != [] {
      var s := Turn(q[0], c.Window(q[0].sid), At(polls, i));
      TurnFits(c, q[0], At(polls, i));
      if !Acts(s) && AfterTurn(q, s) != [] {
        var c' := c.AppendAll(s.frames);
        var next := Rotate(AfterTurn(q, s));
        PassFits(next, c', polls, i + 1, n);
        FitsInTurn(c, s.frames, RunPass(next, c', polls, i + 1, n).frames, 16384);
      }
    }
  }

  /** h2 never refuses a frame while no stream window is negative. */
  lemma {:induction false} NeverRefused(q: seq<Producer>, c: Conn, polls: Polls, i: nat, n: nat)
    requires i <= n && forall p :: p in q ==> (p.ended || Waiting(p)) && c.Window(p.sid) >= 0
    ensures !RunPass(q, c, polls, i, n).fault.WindowRefused?
    decreases n - i
  {
    if i < n && q != [] {
      var s := Turn(q[0], c.Window(q[0].sid), At(polls, i));
      RefusedIffNegative(q[0], c.Window(q[0].sid), At(polls, i));
      TurnProgress(q[0], c.Window(q[0].sid), At(polls, i));
      if !Acts(s) && AfterTurn(q, s) != [] {
        assert q == [q[0]] + q[1..] && c.AppendAll([]) == c;
        RotateFacts(AfterTurn(q, s));
        NeverRefused(Rotate(AfterTurn(q, s)), c, polls, i + 1, n);
      }
    }
  }

  // ----- the queue drains --------------------------------------------------------------------------------

  function TotalWork(q: seq<Producer>): nat {
    if q == [] then 0 else Work(q[0]) + TotalWork(q[1..])
  }

  lemma {:induction false} TotalWorkAppend(a: seq<Producer>, b: seq<Producer>)
    ensures TotalWork(a + b) == TotalWork(a) + TotalWork(b)
  {
    if a == [] {
      assert a + b == b;
    } else {
      assert (a + b)[1..] == a[1..] + b;
      TotalWorkAppend(a[1..], b);
    }
  }

  ghost predicate SomeoneAble(q: seq<Producer>, c: Conn, polls: Polls) {
    exists i :: 0 <= i < |q| && Able(q[i], c.Window(q[i].sid), At(polls, i))
  }

  /** A pass in which somebody can send lowers the total work; otherwise it sends nothing. */
  lemma PassProgress(q: seq<Producer>, c: Conn, polls: Polls)
    requires forall p :: p in q ==> Waiting(p) && c.Window(p.sid) >= 0
    ensures var r := DataFromProducers(q, c, polls);
            && r.fault == NoFault
            && (forall p :: p in r.queue ==> Waiting(p) && p.sid in Ids(q))
            && if SomeoneAble(q, c, polls) then TotalWork(r.queue) < TotalWork(q) && r.frames != []
               else r == Pass(q, [], [], [], NoFault)
  {
    PassIsRotation(q, c, polls);
    var k, r := FirstActive(q, c, polls, 0), DataFromProducers(q, c, polls);
    forall i | 0 <= i < |q|
      ensures Acts(TurnAt(q, c, polls, i)) <==> Able(q[i], c.Window(q[i].sid), At(polls, i))
    {
      ActsIffAble(q, c, polls, i);
    }
    if k < |q| {
      ActsIffAble(q, c, polls, k);
      ProgressAt(q, k, TurnAt(q, c, polls, k), r.queue);
    }
  }

  lemma ActsIffAble(q: seq<Producer>, c: Conn, polls: Polls, i: nat)
    requires i < |q| && Waiting(q[i]) && c.Window(q[i].sid) >= 0
    ensures var s := TurnAt(q, c, polls, i);
            && (Acts(s) <==> Able(q[i], c.Window(q[i].sid), At(polls, i)))
            && !s.refused && s.p.sid == q[i].sid && (s.p.ended || Waiting(s.p))
            && (s.produced ==> Work(s.p) < Work(q[i]) && s.frames != [])
  {
    var w, r := c.Window(q[i].sid), At(polls, i);
    hide Turn, Able, Waiting, Conn.Window, At;
    ProducedIffAble(q[i], w, r);
    RefusedIffNegative(q[i], w, r);
    TurnProgress(q[i], w, r);
    TurnWaits(q[i], w, r);
  }

  lemma ProgressAt(q: seq<Producer>, k: nat, s: Outcome, q': seq<Producer>)
    requires k < |q| && forall p :: p in q ==> Waiting(p)
    requires q' == (if s.p.ended then [] else [s.p]) + q[k + 1..] + q[..k]
    requires Work(s.p) < Work(q[k]) && s.p.sid == q[k].sid && (s.p.ended || Waiting(s.p))
    ensures TotalWork(q') < TotalWork(q)
    ensures forall p :: p in q' ==> Waiting(p) && p.sid in Ids(q)
  {
    WorkAfterRotation(q, k, s.p);
    assert q[k] in q;
    forall p | p in q' ensures Waiting(p) && p.sid in Ids(q) {
      assert (p == s.p && !s.p.ended) || p in q;
    }
  }

  lemma WorkAfterRotation(q: seq<Producer>, k: nat, p: Producer)
    requires k < |q|
    ensures TotalWork([] + q[k + 1..] + q[..k]) == TotalWork(q) - Work(q[k])
    ensures TotalWork([p] + q[k + 1..] + q[..k]) == TotalWork(q) - Work(q[k]) + Work(p)
  {
    assert q == q[..k] + ([q[k]] + q[k + 1..]);
    TotalWorkAppend(q[..k], [q[k]] + q[k + 1..]);
    assert ([q[k]] + q[k + 1..])[1..] == q[k + 1..];
    TotalWorkAppend(q[k + 1..], q[..k]);
    assert [] + q[k + 1..] == q[k + 1..];
    TotalWorkAppend([p] + q[k + 1..], q[..k]);
    assert ([p] + q[k + 1..])[1..] == q[k + 1..];
  }
}
