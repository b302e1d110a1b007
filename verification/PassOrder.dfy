/** Whom a scheduling pass asks, and what it does, when producers were ended from outside as well. */
module PassOrder {
  import opened Octets
  import opened Http2Stream
  import opened H2Connection
  import opened Http2Producer
  import opened ProducerQueue

  /** An iteration that asks the head of the queue, while nobody has done anything yet. `gone` are the
      streams whose producers, ended from outside, were taken off before. */
  datatype Visit = Visit(at: nat, head: Producer, rest: seq<Producer>, gone: seq<StreamId>)

  /** The iterations of a pass in which somebody is asked, as long as nobody does anything: an ended
      head is taken off, and whoever is next goes to the end unasked, unless it is the last. */
  function Visits(q: seq<Producer>, gone: seq<StreamId>, i: nat, n: nat): seq<Visit>
    requires i <= n
    decreases n - i
  {
    if i == n || q == [] then []
    else if !q[0].ended then [Visit(i, q[0], q[1..], gone)] + Visits(Rotate(q), gone, i + 1, n)
    else if |q| == 1 then []
    else Visits(Rotate(q[1..]), gone + [q[0].sid], i + 1, n)
  }

  /** What the pass comes to when nobody does anything. */
  function Unmoved(q: seq<Producer>, gone: seq<StreamId>, i: nat, n: nat): Pass
    requires i <= n
    decreases n - i
  {
    if i == n then Pass(q, [], [], gone, NoFault)
    else if q == [] then Pass([], [], [], gone, EmptyPop)
    else if !q[0].ended then Unmoved(Rotate(q), gone, i + 1, n)
    else if |q| == 1 then Pass([], [], [], gone + [q[0].sid], EmptyPop)
    else Unmoved(Rotate(q[1..]), gone + [q[0].sid], i + 1, n)
  }

  /** Whoever is open, has a window that is not zero, and headers or octets to send, does something. */
  predicate Moves(v: Visit, c: Conn, polls: Polls) {
    !v.head.ended && c.Window(v.head.sid) != 0 && (v.head.headers.Some? || !Starved(v.head, At(polls, v.at)))
  }

  function FirstMover(vs: seq<Visit>, c: Conn, polls: Polls): (k: nat)
    ensures k <= |vs|
    ensures forall j :: 0 <= j < k ==> !Moves(vs[j], c, polls)
    ensures k < |vs| ==> Moves(vs[k], c, polls)
  {
    if vs == [] || Moves(vs[0], c, polls) then 0 else 1 + FirstMover(vs[1..], c, polls)
  }

  /** h2 refuses what the head offers: it has octets, or the end of its stream, and a negative window. */
  predicate Refused(v: Visit, c: Conn, polls: Polls) {
    var w := c.Window(v.head.sid);
    w < 0 && HasDataFrame(v.head, w, At(polls, v.at))
  }

  lemma ActsIffMoves(v: Visit, c: Conn, polls: Polls)
    requires v.head.ended || Waiting(v.head)
    ensures var s := Turn(v.head, c.Window(v.head.sid), At(polls, v.at));
            && (Acts(s) <==> Moves(v, c, polls)) && (s.refused <==> Refused(v, c, polls))
            && (!Acts(s) ==> s == Outcome(v.head, [], false, false, false))
            && (s.produced ==> s.frames != [] && !s.refused)
  {
    var w, r := c.Window(v.head.sid), At(polls, v.at);
    RefusedIffNegative(v.head, w, r);
    TurnProgress(v.head, w, r);
  }

  /** The first visit whose producer moves decides the pass. */
  ghost predicate Decided(vs: seq<Visit>, unmoved: Pass, c: Conn, polls: Polls, r: Pass) {
    var k := FirstMover(vs, c, polls);
    if k == |vs| then r == unmoved
    else
      var v := vs[k];
      var s := Turn(v.head, c.Window(v.head.sid), At(polls, v.at));
      && r.queue == (if s.p.ended && !s.refused then v.rest else [s.p] + v.rest)
      && r.frames == s.frames && r.log == LogOf(s)
      && r.finished == v.gone + (if s.p.ended && !s.refused then [s.p.sid] else [])
      && r.fault == if s.refused then WindowRefused(LostBy(v.head, s)) else NoFault
  }

  /** Exactly what a pass does, also with producers ended from outside. */
  lemma PassIsDecided(q: seq<Producer>, c: Conn, polls: Polls)
    requires forall p :: p in q ==> p.ended || Waiting(p)
    ensures Decided(Visits(q, [], 0, |q|), Unmoved(q, [], 0, |q|), c, polls, DataFromProducers(q, c, polls))
  {
    DecidedFrom(q, [], c, polls, 0, |q|);
    var r := DataFromProducers(q, c, polls);
    assert r.(finished := [] + r.finished) == r;
  }

  lemma {:induction false} DecidedFrom(q: seq<Producer>, gone: seq<StreamId>, c: Conn, polls: Polls, i: nat, n: nat)
    requires i <= n && forall p :: p in q ==> p.ended || Waiting(p)
    ensures var r := RunPass(q, c, polls, i, n);
            Decided(Visits(q, gone, i, n), Unmoved(q, gone, i, n), c, polls, r.(finished := gone + r.finished))
    decreases n - i
  {
    if i < n && q != [] {
      var s := Turn(q[0], c.Window(q[0].sid), At(polls, i));
      ActsIffMoves(Visit(i, q[0], q[1..], gone), c, polls);
      hide Turn;
      assert q[0] in q;
      if Acts(s) {
        HeadDecides(q, gone, c, polls, i, n);
      } else if q[0].ended && |q| == 1 {
        assert q[1..] == [] && RunPass(q, c, polls, i, n) == Continue(q, c, s, polls, i, n);
      } else {
        var next := if q[0].ended then q[1..] else q;
        assert q == [q[0]] + q[1..];
        RotateFacts(next);
        DecidedFrom(Rotate(next), gone + if q[0].ended then [q[0].sid] else [], c, polls, i + 1, n);
        HeadIsPassed(q, gone, c, polls, i, n);
      }
    }
  }

  lemma HeadDecides(q: seq<Producer>, gone: seq<StreamId>, c: Conn, polls: Polls, i: nat, n: nat)
    requires i < n && q != [] && !q[0].ended && Moves(Visit(i, q[0], q[1..], gone), c, polls)
    requires var s := Turn(q[0], c.Window(q[0].sid), At(polls, i)); Acts(s) && !(s.produced && s.refused)
    ensures var r := RunPass(q, c, polls, i, n);
            Decided(Visits(q, gone, i, n), Unmoved(q, gone, i, n), c, polls, r.(finished := gone + r.finished))
  {
    var vs := Visits(q, gone, i, n);
    assert vs[0] == Visit(i, q[0], q[1..], gone) && FirstMover(vs, c, polls) == 0;
    hide Turn, Visits, Unmoved, FirstMover;
  }

  lemma HeadIsPassed(q: seq<Producer>, gone: seq<StreamId>, c: Conn, polls: Polls, i: nat, n: nat)
    requires i < n && q != [] && (q[0].ended ==> |q| > 1) && !Moves(Visit(i, q[0], q[1..], gone), c, polls)
    requires Turn(q[0], c.Window(q[0].sid), At(polls, i)) == Outcome(q[0], [], false, false, false)
    requires var next := Rotate(if q[0].ended then q[1..] else q);
             var gone' := gone + if q[0].ended then [q[0].sid] else [];
             var r := RunPass(next, c, polls, i + 1, n);
             Decided(Visits(next, gone', i + 1, n), Unmoved(next, gone', i + 1, n), c, polls,
                     r.(finished := gone' + r.finished))
    ensures var r := RunPass(q, c, polls, i, n);
            Decided(Visits(q, gone, i, n), Unmoved(q, gone, i, n), c, polls, r.(finished := gone + r.finished))
  {
    var v, next := Visit(i, q[0], q[1..], gone), Rotate(if q[0].ended then q[1..] else q);
    var more := if q[0].ended then [q[0].sid] else [];
    var vs, unmoved := Visits(next, gone + more, i + 1, n), Unmoved(next, gone + more, i + 1, n);
    var rest, r := RunPass(next, c, polls, i + 1, n), RunPass(q, c, polls, i, n);
    PassedOver(q, c, polls, i, n);
    assert gone + [] == gone;
    assert Visits(q, gone, i, n) == (if q[0].ended then [] else [v]) + vs && Unmoved(q, gone, i, n) == unmoved;
    Associative(gone, more, rest.finished);
    assert r.(finished := gone + r.finished) == rest.(finished := gone + more + rest.finished);
    hide Visits, Unmoved, RunPass, Decided, Moves;
    if !q[0].ended {
      DecidedTail(v, vs, unmoved, c, polls, r.(finished := gone + r.finished));
    }
  }

  lemma PassedOver(q: seq<Producer>, c: Conn, polls: Polls, i: nat, n: nat)
    requires i < n && q != [] && (q[0].ended ==> |q| > 1)
    requires Turn(q[0], c.Window(q[0].sid), At(polls, i)) == Outcome(q[0], [], false, false, false)
    ensures var rest := RunPass(Rotate(if q[0].ended then q[1..] else q), c, polls, i + 1, n);
            RunPass(q, c, polls, i, n) == rest.(finished := (if q[0].ended then [q[0].sid] else []) + rest.finished)
  {
    var s := Turn(q[0], c.Window(q[0].sid), At(polls, i));
    hide Turn;
    assert RunPass(q, c, polls, i, n) == Continue(q, c, s, polls, i, n);
    assert q == [q[0]] + q[1..] && c.AppendAll([]) == c;
    assert AfterTurn(q, s) == if q[0].ended then q[1..] else q;
    var rest := RunPass(Rotate(AfterTurn(q, s)), c, polls, i + 1, n);
    assert [] + rest.frames == rest.frames && [] + rest.log == rest.log;
  }

  /** A visit without effect is passed over. */
  lemma DecidedTail(v: Visit, vs: seq<Visit>, unmoved: Pass, c: Conn, polls: Polls, r: Pass)
    requires !Moves(v, c, polls)
    ensures Decided([v] + vs, unmoved, c, polls, r) <==> Decided(vs, unmoved, c, polls, r)
  {
    hide Turn, Moves;
    assert ([v] + vs)[1..] == vs;
    assert FirstMover([v] + vs, c, polls) == 1 + FirstMover(vs, c, polls);
  }

  // ----- the order of the visits -------------------------------------------------------------------------

  function Asked(vs: seq<Visit>): (r: seq<Producer>)
    ensures |r| == |vs| && forall i :: 0 <= i < |vs| ==> r[i] == vs[i].head
  {
    seq(|vs|, i requires 0 <= i < |vs| => vs[i].head)
  }

  lemma AskedStep(q: seq<Producer>, gone: seq<StreamId>, i: nat, n: nat)
    requires i < n && q != []
    ensures !q[0].ended ==>
              Asked(Visits(q, gone, i, n)) == [q[0]] + Asked(Visits(q[1..] + [q[0]], gone, i + 1, n))
    ensures q[0].ended && |q| > 1 ==>
              Visits(q, gone, i, n) == Visits(q[2..] + [q[1]], gone + [q[0].sid], i + 1, n)
  {
    if !q[0].ended {
      assert Rotate(q) == q[1..] + [q[0]];
      var v, vs := Visit(i, q[0], q[1..], gone), Visits(Rotate(q), gone, i + 1, n);
      assert Visits(q, gone, i, n) == [v] + vs;
      AskedCons(v, vs);
    } else if |q| > 1 {
      assert Rotate(q[1..]) == q[2..] + [q[1]];
    }
  }

  lemma AskedCons(v: Visit, vs: seq<Visit>)
    ensures Asked([v] + vs) == [v.head] + Asked(vs)
  {
  }

  lemma RotatedFurther<T>(q: seq<T>, m: nat)
    requires 0 < m <= |q|
    ensures var next := q[1..] + [q[0]];
            next[m - 1..] + next[..m - 1] == q[m..] + q[..m] && [q[0]] + next[..m - 1] == q[..m]
  {
    var next := q[1..] + [q[0]];
    assert next[..m - 1] == q[1..m] && next[m - 1..] == q[m..] + [q[0]];
  }

  predicate AllOpen(q: seq<Producer>) {
    forall i :: 0 <= i < |q| ==> !q[i].ended
  }

  /** Heads that are open are asked one after the other. */
  lemma {:induction false} OpenHeads(a: seq<Producer>, b: seq<Producer>, gone: seq<StreamId>, i: nat, n: nat)
    requires i + |a| <= n && AllOpen(a)
    ensures Asked(Visits(a + b, gone, i, n)) == a + Asked(Visits(b + a, gone, i + |a|, n))
    decreases |a|
  {
    hide Visits, Asked;
    if a == [] {
      assert a + b == b && b + a == b && [] + Asked(Visits(b, gone, i, n)) == Asked(Visits(b, gone, i, n));
    } else {
      var head, tail := a[0], a[1..];
      AskedStep(a + b, gone, i, n);
      assert (a + b)[1..] + [head] == tail + (b + [head]) && b + [head] + tail == b + a;
      OpenHeads(tail, b + [head], gone, i + 1, n);
      Associative([head], tail, Asked(Visits(b + a, gone, i + |a|, n)));
      assert [head] + tail == a;
    }
  }

  /** With nobody ended, everybody is asked, in queue order. */
  lemma AllOpenAsked(q: seq<Producer>)
    requires AllOpen(q)
    ensures Asked(Visits(q, [], 0, |q|)) == q
  {
    OpenHeads(q, [], [], 0, |q|);
    assert q + [] == q && [] + q == q;
  }

  /** With one producer ended from outside, and others behind it: the one right behind it is not asked
      in its turn. It is asked last if the ended one was the head of the queue; else it is not asked at
      all, and the head is asked twice. */
  lemma OneEndedAsked(a: seq<Producer>, ended: Producer, behind: Producer, b: seq<Producer>)
    requires AllOpen(a) && ended.ended && !behind.ended && AllOpen(b)
    ensures var q := a + [ended, behind] + b;
            Asked(Visits(q, [], 0, |q|)) == a + b + [if a == [] then behind else a[0]]
  {
    var n, gone, now := |a| + 2 + |b|, [ended.sid], [ended, behind] + b + a;
    var last := a + [behind] + b;
    hide Visits, Asked, AllOpen;
    OpenHeads(a, [ended, behind] + b, [], 0, n);
    Associative(a, [ended, behind], b);
    AskedStep(now, [], |a|, n);
    assert now[2..] + [now[1]] == b + (a + [behind]) && [] + gone == gone;
    OpenHeads(b, a + [behind], gone, |a| + 1, n);
    assert !last[0].ended by { OpenFirst(a, behind); }
    LastAsked(last, gone, n);
    Associative(a, b, [last[0]]);
  }

  lemma OpenFirst(a: seq<Producer>, p: Producer)
    requires AllOpen(a) && !p.ended
    ensures !(a + [p])[0].ended
  {
  }

  lemma LastAsked(q: seq<Producer>, gone: seq<StreamId>, n: nat)
    requires n > 0 && q != [] && !q[0].ended
    ensures Asked(Visits(q, gone, n - 1, n)) == [q[0]]
  {
    AskedStep(q, gone, n - 1, n);
  }

  /** So a pass can send nothing although somebody can: the one behind the ended producer, when the
      others have no window and the ended one is not the head. */
  lemma AbleIsPassedOver(a: seq<Producer>, ended: Producer, behind: Producer, b: seq<Producer>, c: Conn, polls: Polls)
    requires a != [] && AllOpen(a) && ended.ended && !behind.ended && AllOpen(b)
    requires forall p :: p in a || p in b ==> Waiting(p) && c.Window(p.sid) == 0
    requires Waiting(behind)
    ensures var r := DataFromProducers(a + [ended, behind] + b, c, polls);
            r.frames == [] && r.log == [] && r.fault == NoFault
  {
    var q := a + [ended, behind] + b;
    var vs := Visits(q, [], 0, |q|);
    OneEndedAsked(a, ended, behind, b);
    assert forall p :: p in q <==> p in a || p == ended || p == behind || p in b;
    PassIsDecided(q, c, polls);
    hide Visits, Unmoved, AllOpen, Waiting;
    forall j | 0 <= j < |vs| ensures !Moves(vs[j], c, polls) {
      assert vs[j].head in a + b + [a[0]];
    }
    UnmovedSends(q, [], 0, |q|);
    EmptyPopIff(q, c, polls);
    assert behind in q;
    hide DataFromProducers;
  }

  lemma {:induction false} UnmovedSends(q: seq<Producer>, gone: seq<StreamId>, i: nat, n: nat)
    requires i <= n
    ensures var r := Unmoved(q, gone, i, n);
            && r.frames == [] && r.log == [] && (r.fault == NoFault || r.fault == EmptyPop)
            && (q != [] && r.fault == NoFault ==> r.queue != [])
    decreases n - i
  {
    if i < n && q != [] {
      if !q[0].ended {
        UnmovedSends(Rotate(q), gone, i + 1, n);
      } else if |q| > 1 {
        UnmovedSends(Rotate(q[1..]), gone + [q[0].sid], i + 1, n);
      }
    }
  }

  lemma {:induction false} VisitsAreQueued(q: seq<Producer>, gone: seq<StreamId>, i: nat, n: nat)
    requires i <= n
    ensures forall v :: v in Visits(q, gone, i, n) ==> v.head in q
    decreases n - i
  {
    if i < n && q != [] {
      if !q[0].ended {
        RotateFacts(q);
        VisitsAreQueued(Rotate(q), gone, i + 1, n);
      } else if |q| > 1 {
        RotateFacts(q[1..]);
        VisitsAreQueued(Rotate(q[1..]), gone + [q[0].sid], i + 1, n);
      }
    }
  }
}
