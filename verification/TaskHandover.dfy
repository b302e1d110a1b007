/** Who gets whose task from the executor, when transaction ids are not distinct. */
module TaskHandover {
  import opened Wrappers
  import opened AsyncExecutor

  // ----- tasks that can still be collected ---------------------------------------------------------

  /** The items before the first sentinel. */
  function Ahead(queue: seq<Option<Item>>): seq<Item> {
    if queue == [] || queue[0].None? then [] else [queue[0].value] + Ahead(queue[1..])
  }

  /** The items whose tasks are still to be published. */
  function Coming(s: Executor): seq<Item> {
    match s.pc
    case Waiting => Ahead(s.queue)
    case Stopped => []
    case _ => [s.pc.item] + Ahead(s.queue)
  }

  /** The task of the item is there to be collected, or on its way. */
  predicate Left(s: Executor, i: Item) {
    i in Coming(s) || Holds(s.futures, i)
  }

  /** Whatever is put now is not started. */
  predicate Cut(s: Executor) {
    s.pc.Stopped? || None in s.queue
  }

  lemma {:induction false} AheadSnoc(queue: seq<Option<Item>>, e: Option<Item>)
    ensures Ahead(queue + [e]) == Ahead(queue) + if None !in queue && e.Some? then [e.value] else []
  {
    if queue == [] {
      assert [e][1..] == [];
    } else {
      assert (queue + [e])[1..] == queue[1..] + [e];
      AheadSnoc(queue[1..], e);
    }
  }

  lemma {:induction false} AheadIsQueued(queue: seq<Option<Item>>)
    ensures forall i :: i in Ahead(queue) ==> Some(i) in queue
  {
    if queue != [] {
      AheadIsQueued(queue[1..]);
    }
  }

  /** Without another put no task is left that was not before, and nobody begins to wait. */
  lemma LeftShrinks(s: Executor, e: Event)
    requires !e.Put?
    ensures var s' := Step(s, e); s'.waiting <= s.waiting && forall i :: Left(s', i) ==> Left(s, i)
  {
    hide Used;
  }

  // ----- when everyone gets their own task -----------------------------------------------------------

  /** Everyone served so far got the task of their own item. */
  predicate AllOwn(s: Executor) {
    forall c :: c in s.collected ==> c.putter == c.task
  }

  /** Nobody waits who could get the task of another. */
  ghost predicate OwnOnly(s: Executor) {
    forall a, b :: Left(s, a) && b in s.waiting && a.tid == b.tid ==> a == b
  }

  predicate NoPuts(events: seq<Event>) {
    forall e :: e in events ==> !e.Put?
  }

  /** Whatever the dispatcher, the completions and the putters that wait do next. */
  ghost predicate OwnForSure(s: Executor) {
    forall more :: NoPuts(more) ==> AllOwn(Run(s, more))
  }

  lemma OwnKept(s: Executor, e: Event)
    requires Inv(s) && !e.Put? && AllOwn(s) && OwnOnly(s)
    ensures AllOwn(Step(s, e)) && OwnOnly(Step(s, e))
  {
    LeftShrinks(s, e);
    if e.Collect? && Enabled(s, e) {
      assert Holds(s.futures, s.futures[e.putter.tid]);
      assert Left(s, s.futures[e.putter.tid]);
    }
    hide Left, Used, Inv;
  }

  lemma {:induction false} OwnWithoutPuts(s: Executor, more: seq<Event>)
    requires Inv(s) && NoPuts(more) && AllOwn(s) && OwnOnly(s)
    ensures AllOwn(Run(s, more)) && OwnOnly(Run(s, more)) && Inv(Run(s, more))
  {
    if more != [] {
      var front, e := more[..|more| - 1], more[|more| - 1];
      OwnWithoutPuts(s, front);
      hide Inv, AllOwn, OwnOnly, Step;
      StepKeeps(Run(s, front), e);
      OwnKept(Run(s, front), e);
    }
  }

  // ----- bringing a task on its way ---------------------------------------------------------------------

  lemma RunFirst(s: Executor, e: Event, more: seq<Event>)
    ensures Run(s, [e] + more) == Run(Step(s, e), more)
  {
    RunOn(s, [e], more);
    OneStep(s, e);
  }

  lemma NothingRuns(s: Executor)
    requires Inv(s) && s.pc.Waiting? && s.running == {}
    ensures s.current <= s.maxTask
  {
    PooledAtMost(s.started);
  }

  /** The completions of all that runs, after which the dispatcher need not wait. */
  lemma {:induction false} Drains(s: Executor) returns (more: seq<Event>)
    requires Inv(s) && s.pc.Waiting?
    ensures NoPuts(more) && Inv(Run(s, more)) && Run(s, more).current <= s.maxTask
    ensures var s' := Run(s, more);
            s' == s.(current := s'.current, running := s'.running, finished := s'.finished)
    decreases |s.running|
  {
    if s.running == {} {
      more := [];
      NothingRuns(s);
      hide Inv;
    } else {
      hide Inv, Step, Run;
      var i :| i in s.running;
      StepKeeps(s, Finish(i));
      FinishIsStep(s, i);
      var rest := Drains(AfterFinish(s, i));
      RunFirst(s, Finish(i), rest);
      more := [Finish(i)] + rest;
    }
  }

  /** What the dispatcher does next. */
  function Next(s: Executor): Event {
    match s.pc
    case Waiting => Pop
    case Popped(_) => Submit
    case Submitted(_) => Count
    case _ => Publish
  }

  function Rank(pc: Pc): nat {
    match pc
    case Popped(_) => 3
    case Submitted(_) => 2
    case Counted(_) => 1
    case _ => 0
  }

  lemma NextBrings(s: Executor, a: Item)
    requires a in Coming(s) && (s.pc.Waiting? ==> s.current <= s.maxTask)
    ensures var s' := Step(s, Next(s));
            && s'.waiting == s.waiting && s'.collected == s.collected
            && (a in Coming(s') || Holds(s'.futures, a))
            && (|s'.queue| < |s.queue| || (s'.queue == s.queue && Rank(s'.pc) < Rank(s.pc)))
  {
    hide Used;
  }

  /** The dispatcher need not wait, after some completions. */
  lemma Wakes(s: Executor, a: Item) returns (more: seq<Event>)
    requires Inv(s) && a in Coming(s)
    ensures NoPuts(more)
    ensures var s' := Run(s, more);
            && Inv(s') && a in Coming(s') && (s'.pc.Waiting? ==> s'.current <= s'.maxTask)
            && s'.queue == s.queue && s'.pc == s.pc && s'.waiting == s.waiting && s'.collected == s.collected
  {
    if s.pc.Waiting? {
      hide Inv;
      more := Drains(s);
      SameComing(s, Run(s, more));
      hide Run;
    } else {
      more := [];
    }
  }

  lemma SameComing(s: Executor, s': Executor)
    requires s'.pc == s.pc && s'.queue == s.queue
    ensures Coming(s') == Coming(s) && Cut(s') == Cut(s)
  {
  }

  lemma Delivers(s: Executor, a: Item) returns (more: seq<Event>)
    requires Inv(s) && Left(s, a)
    ensures NoPuts(more)
    ensures var s' := Run(s, more); Holds(s'.futures, a) && s'.waiting == s.waiting && s'.collected == s.collected
    decreases |s.queue|, Rank(s.pc)
  {
    if Holds(s.futures, a) {
      more := [];
    } else {
      hide Inv, Step, Run, Coming, Rank, Next;
      var wait := Wakes(s, a);
      var s1 := Run(s, wait);
      var e := Next(s1);
      NextBrings(s1, a);
      StepKeeps(s1, e);
      assert Left(Step(s1, e), a);
      hide Left, Holds;
      var rest := Delivers(Step(s1, e), a);
      RunOn(s, wait, [e] + rest);
      RunFirst(s1, e, rest);
      more := wait + ([e] + rest);
      NextIsNoPut(s1);
    }
  }

  lemma NextIsNoPut(s: Executor)
    ensures !Next(s).Put?
  {
  }

  /** Somebody who waits with the id of a task of another can get it. */
  lemma CrossedIsPossible(s: Executor, a: Item, b: Item)
    requires Inv(s) && Left(s, a) && b in s.waiting && a.tid == b.tid && a != b
    ensures !OwnForSure(s)
  {
    hide Inv, Step, Run, Left;
    var more := Delivers(s, a);
    var s1 := Run(s, more);
    RunOne(s, more, Collect(b));
    CollectIsStep(s1, b);
    var all := more + [Collect(b)];
    assert Handout(b, a) in Run(s, all).collected;
    assert NoPuts(all) && !AllOwn(Run(s, all));
  }

  /** In any state: everyone who waits, and has been served, gets the task of their own item, whatever
      happens next, if and only if that is so up to now and nobody waits with the id of a task of
      another that can still be collected. */
  lemma OwnForSureIff(s: Executor)
    requires Inv(s)
    ensures OwnForSure(s) <==> AllOwn(s) && OwnOnly(s)
  {
    if AllOwn(s) && OwnOnly(s) {
      forall more | NoPuts(more) ensures AllOwn(Run(s, more)) {
        OwnWithoutPuts(s, more);
      }
    } else if !AllOwn(s) {
      assert NoPuts([]) && !AllOwn(Run(s, []));
    } else {
      hide Inv, Left;
      var a, b :| Left(s, a) && b in s.waiting && a.tid == b.tid && a != b;
      CrossedIsPossible(s, a, b);
    }
  }

  // ----- whole runs -----------------------------------------------------------------------------------

  predicate BeforeSentinel(put: seq<Option<Item>>, i: Item) {
    exists k :: 0 <= k < |put| && put[k] == Some(i) && None !in put[..k]
  }

  /** A put while another putter waits with the same id; one that put after the sentinel does not matter. */
  ghost predicate Clashes(s: Executor, e: Event) {
    && e.Put? && e.entry.Some? && Enabled(s, e)
    && exists a :: a in s.waiting && BeforeSentinel(s.put, a) && a.tid == e.entry.value.tid
  }

  ghost predicate Careful(s: Executor, events: seq<Event>) {
    events == [] ||
    var front := events[..|events| - 1];
    Careful(s, front) && !Clashes(Run(s, front), events[|events| - 1])
  }

  /** As long as nobody is served with the task of another, a task that is left has its putter waiting, and
      whoever waits has a task left, or put after the sentinel. */
  ghost predicate Tidy(s: Executor) {
    && AllOwn(s) && OwnOnly(s)
    && (forall i :: Left(s, i) ==> i in s.waiting)
    && (forall i :: i in s.waiting ==> Left(s, i) || (Cut(s) && i !in s.started))
  }

  lemma SentinelBehind(front: seq<Option<Item>>, rest: seq<Option<Item>>, i: Item)
    requires None !in front
    ensures BeforeSentinel(front + rest, i) <==> Some(i) in front || BeforeSentinel(rest, i)
  {
    var all := front + rest;
    if Some(i) in front {
      var k :| 0 <= k < |front| && front[k] == Some(i);
      assert all[..k] == front[..k] && all[k] == Some(i);
    }
    if BeforeSentinel(rest, i) {
      var k :| 0 <= k < |rest| && rest[k] == Some(i) && None !in rest[..k];
      assert all[..|front| + k] == front + rest[..k] && all[|front| + k] == Some(i);
    }
    if BeforeSentinel(all, i) && Some(i) !in front {
      var k :| 0 <= k < |all| && all[k] == Some(i) && None !in all[..k];
      assert all[..k] == front + rest[..k - |front|];
    }
  }

  lemma {:induction false} AheadIsBefore(queue: seq<Option<Item>>, i: Item)
    ensures i in Ahead(queue) <==> BeforeSentinel(queue, i)
  {
    if queue != [] {
      assert queue == [queue[0]] + queue[1..];
      if queue[0].Some? {
        SentinelBehind([queue[0]], queue[1..], i);
        AheadIsBefore(queue[1..], i);
      } else {
        assert forall k :: 0 < k < |queue| ==> queue[..k][0] == None;
      }
    }
  }

  /** What was put before the sentinel is what has been started or will be. */
  lemma ReachedIff(s: Executor, i: Item)
    requires Inv(s)
    ensures BeforeSentinel(s.put, i) <==> i in s.started || i in Coming(s)
  {
    hide Counts, HandedOver, DistinctPuts, BeforeSentinel;
    if s.pc.Stopped? {
      var rest := [None] + s.queue;
      assert s.put == Wrap(s.started) + rest;
      SentinelBehind(Wrap(s.started), rest, i);
      AheadIsBefore(rest, i);
    } else {
      SentinelBehind(Wrap(s.started) + InHand(s.pc), s.queue, i);
      AheadIsBefore(s.queue, i);
    }
    assert Some(i) in Wrap(s.started) <==> i in s.started by {
      assert i in s.started ==> exists k :: 0 <= k < |s.started| && s.started[k] == i && Wrap(s.started)[k] == Some(i);
    }
    LastIsStarted(s);
  }

  lemma LastIsStarted(s: Executor)
    requires Inv(s)
    ensures s.pc.Submitted? || s.pc.Counted? ==> s.pc.item in s.started
  {
  }

  lemma WaitsIffLeft(s: Executor, i: Item)
    requires Inv(s) && Tidy(s) && i in s.waiting
    ensures Left(s, i) <==> BeforeSentinel(s.put, i)
  {
    ReachedIff(s, i);
    PublishedAre(s);
    hide BeforeSentinel, Coming, InOrder, Counts, DistinctPuts, AllOwn, OwnOnly;
  }

  lemma PutStaysTidy(s: Executor, entry: Option<Item>)
    requires Inv(s) && Tidy(s) && Enabled(s, Put(entry)) && !Clashes(s, Put(entry))
    ensures Tidy(Step(s, Put(entry)))
  {
    hide Step, Left, Cut, Used, Inv;
    PutIs(s, entry);
    if entry.Some? {
      NewIsNotLeft(s, entry.value);
      NewIsOwn(s, entry.value);
    }
    hide OwnOnly, Clashes, Enabled;
  }

  lemma NewIsOwn(s: Executor, b: Item)
    requires Inv(s) && Tidy(s) && Enabled(s, Put(Some(b))) && !Clashes(s, Put(Some(b)))
    ensures OwnOnly(Step(s, Put(Some(b))))
  {
    var s' := Step(s, Put(Some(b)));
    hide Step, Left, Cut, Used, Inv, AllOwn;
    PutIs(s, Some(b));
    forall i | i in s.waiting ensures Left(s, i) <==> BeforeSentinel(s.put, i) {
      WaitsIffLeft(s, i);
    }
    hide BeforeSentinel;
    forall a, c | Left(s', a) && c in s'.waiting && a.tid == c.tid ensures a == c {
      assert Left(s, a) ==> a in s.waiting;
      assert a == b && c != b ==> Left(s, c);
    }
  }

  lemma PutIs(s: Executor, entry: Option<Item>)
    requires Enabled(s, Put(entry))
    ensures var s' := Step(s, Put(entry));
            && s'.waiting == s.waiting + (if entry.Some? then {entry.value} else {})
            && s'.collected == s.collected && s'.started == s.started
            && (Cut(s') <==> Cut(s) || entry.None?)
            && forall i :: Left(s', i) <==> Left(s, i) || (Some(i) == entry && !Cut(s))
  {
    AheadSnoc(s.queue, entry);
    hide Used;
  }

  lemma NewIsNotLeft(s: Executor, b: Item)
    requires Inv(s) && !Used(s, b.coro)
    ensures b !in s.waiting && b !in s.started
  {
  }

  lemma ComingIsLater(s: Executor, i: Item)
    requires Inv(s) && i in Coming(s)
    ensures exists k :: |Published(s)| <= k < |s.put| && s.put[k] == Some(i)
  {
    hide Counts, Tasks, Putters, DistinctPuts;
    var n := |s.started| + |InHand(s.pc)|;
    if !s.pc.Waiting? && i == s.pc.item {
      assert s.put[|Published(s)|] == Some(i);
    } else {
      AheadIsQueued(s.queue);
      var k :| 0 <= k < |s.queue| && s.queue[k] == Some(i);
      assert s.put[n + k] == Some(i);
    }
  }

  /** What has been published is not published again. */
  lemma PublishedOnce(s: Executor, i: Item)
    requires Inv(s) && i in Published(s)
    ensures i !in Coming(s)
  {
    var j :| 0 <= j < |Published(s)| && Published(s)[j] == i;
    assert s.put[j] == Some(i);
    forall c | c in Coming(s) ensures c != i {
      ComingIsLater(s, c);
      var k :| |Published(s)| <= k < |s.put| && s.put[k] == Some(c);
      hide Counts, HandedOver, Coming;
    }
  }

  lemma PublishStaysTidy(s: Executor)
    requires Inv(s) && Tidy(s) && s.pc.Counted?
    ensures var s' := Step(s, Publish); forall i :: i in s'.waiting ==> Left(s', i) || (Cut(s') && i !in s'.started)
  {
    PublishLeaves(s);
    hide Step, Inv, Left, Cut;
    forall i | i in s.waiting && Left(s, i) ensures Left(Step(s, Publish), i) {
      assert i.tid == s.pc.item.tid ==> i == s.pc.item;
    }
  }

  lemma PublishLeaves(s: Executor)
    requires s.pc.Counted?
    ensures var s' := Step(s, Publish);
            && s'.waiting == s.waiting && s'.started == s.started && (Cut(s') <==> Cut(s))
            && Left(s, s.pc.item) && Left(s', s.pc.item)
            && forall i :: Left(s, i) && i.tid != s.pc.item.tid ==> Left(s', i)
  {
    PublishIsStep(s);
    hide Step;
  }

  lemma CollectStaysTidy(s: Executor, putter: Item)
    requires Inv(s) && Tidy(s) && putter in s.waiting && putter.tid in s.futures
    ensures var s' := Step(s, Collect(putter));
            && (forall i :: Left(s', i) ==> i in s'.waiting)
            && (forall i :: i in s'.waiting ==> Left(s', i) || (Cut(s') && i !in s'.started))
  {
    CollectIsStep(s, putter);
    var task := s.futures[putter.tid];
    assert Left(s, task) && task == putter;
    PublishedOnce(s, task);
    hide Step, Inv, Coming;
    assert Coming(Step(s, Collect(putter))) == Coming(s) by { SameComing(s, Step(s, Collect(putter))); }
  }

  /** The events that publish nothing and serve nobody. */
  lemma OtherStaysTidy(s: Executor, e: Event)
    requires Inv(s) && Tidy(s) && !e.Put? && !e.Publish? && !e.Collect?
    ensures var s' := Step(s, e);
            && s'.waiting == s.waiting && (forall i :: Left(s', i) <==> Left(s, i)) && (Cut(s) ==> Cut(s'))
            && forall i :: i in s'.started ==> i in s.started || Left(s, i)
  {
    hide Used, Inv;
  }

  lemma StepStaysTidy(s: Executor, e: Event)
    requires Inv(s) && Tidy(s) && !e.Put? && Enabled(s, e)
    ensures Tidy(Step(s, e))
  {
    LeftShrinks(s, e);
    OwnKept(s, e);
    if e.Publish? {
      PublishStaysTidy(s);
      PublishIsStep(s);
    } else if e.Collect? {
      CollectStaysTidy(s, e.putter);
    } else {
      OtherStaysTidy(s, e);
    }
    hide Step, Left, Inv, AllOwn, OwnOnly, Cut, Enabled;
  }

  lemma {:induction false} CarefulIsTidy(maxTask: nat, events: seq<Event>)
    requires Careful(Start(maxTask), events)
    ensures Tidy(Run(Start(maxTask), events))
  {
    if events != [] {
      var front, e := events[..|events| - 1], events[|events| - 1];
      CarefulIsTidy(maxTask, front);
      RunKeeps(maxTask, front);
      hide Tidy, Inv, Clashes, Step;
      var s := Run(Start(maxTask), front);
      if !Enabled(s, e) {
        NotEnabled(s, e);
      } else if e.Put? {
        PutStaysTidy(s, e.entry);
      } else {
        StepStaysTidy(s, e);
      }
    }
  }

  lemma {:induction false} CarefulSoFar(s: Executor, events: seq<Event>, k: nat)
    requires Careful(s, events) && k <= |events|
    ensures Careful(s, events[..k])
  {
    if k < |events| {
      assert events[..|events| - 1][..k] == events[..k];
      CarefulSoFar(s, events[..|events| - 1], k);
    } else {
      assert events[..k] == events;
    }
  }

  /** The put behind a clash makes it possible that the tasks are crossed. */
  lemma ClashCrosses(s: Executor, e: Event)
    requires Inv(s) && Tidy(s) && Clashes(s, e)
    ensures !OwnForSure(Step(s, e))
  {
    hide Left, Step, Inv, OwnForSure, Used, BeforeSentinel;
    var b := e.entry.value;
    var a :| a in s.waiting && BeforeSentinel(s.put, a) && a.tid == b.tid;
    WaitsIffLeft(s, a);
    NewIsNotLeft(s, b);
    PutIs(s, e.entry);
    StepKeeps(s, e);
    CrossedIsPossible(Step(s, e), a, b);
  }

  lemma {:induction false} CarelessCrosses(maxTask: nat, events: seq<Event>)
    requires !Careful(Start(maxTask), events)
    ensures exists k :: 0 <= k <= |events| && !OwnForSure(Run(Start(maxTask), events[..k]))
  {
    hide Inv, Clashes, OwnForSure, Step, Tidy;
    var n := |events| - 1;
    var front, e := events[..n], events[n];
    if !Careful(Start(maxTask), front) {
      CarelessCrosses(maxTask, front);
      var k :| 0 <= k <= n && !OwnForSure(Run(Start(maxTask), front[..k]));
      assert events[..k] == front[..k];
    } else {
      RunKeeps(maxTask, front);
      CarefulIsTidy(maxTask, front);
      ClashCrosses(Run(Start(maxTask), front), e);
      assert events[..n + 1] == events;
    }
  }

  /** Everyone gets the task of their own item, from every point of a run on and whatever the threads
      do, if and only if nobody puts while another putter with the same transaction id waits. */
  lemma EachGetsItsOwnIff(maxTask: nat, events: seq<Event>)
    ensures Careful(Start(maxTask), events) <==>
            forall k :: 0 <= k <= |events| ==> OwnForSure(Run(Start(maxTask), events[..k]))
  {
    hide Inv, Careful, OwnForSure, Tidy, Run;
    if Careful(Start(maxTask), events) {
      forall k | 0 <= k <= |events| ensures OwnForSure(Run(Start(maxTask), events[..k])) {
        CarefulSoFar(Start(maxTask), events, k);
        RunKeeps(maxTask, events[..k]);
        CarefulIsTidy(maxTask, events[..k]);
        TidyIsOwn(Run(Start(maxTask), events[..k]));
      }
    } else {
      CarelessCrosses(maxTask, events);
    }
  }

  lemma TidyIsOwn(s: Executor)
    requires Inv(s) && Tidy(s)
    ensures OwnForSure(s)
  {
    OwnForSureIff(s);
    hide Inv, OwnForSure, AllOwn, OwnOnly;
  }

  /** In such runs nothing is lost either: each published task is kept for its putter, or was collected
      by it. */
  lemma NothingIsLost(maxTask: nat, events: seq<Event>)
    requires Careful(Start(maxTask), events)
    ensures var s := Run(Start(maxTask), events);
            forall i :: i in Published(s) ==> (Holds(s.futures, i) <==> Handout(i, i) !in s.collected)
  {
    var s := Run(Start(maxTask), events);
    RunKeeps(maxTask, events);
    CarefulIsTidy(maxTask, events);
    hide Run, Careful;
    PublishedAre(s);
    forall i | i in Published(s) ensures Holds(s.futures, i) <==> Handout(i, i) !in s.collected {
      PublishedOnce(s, i);
      PublishedIsKept(s, i);
    }
  }

  lemma PublishedIsKept(s: Executor, i: Item)
    requires Inv(s) && Tidy(s) && i in Published(s) && i in s.started && i !in Coming(s)
    ensures Holds(s.futures, i) <==> Handout(i, i) !in s.collected
  {
    StartedWasPut(s);
    assert Some(i) in s.put;
    if i in Served(s.collected) {
      var c :| c in s.collected && c.putter == i;
      assert c == Handout(i, i);
    }
  }

  lemma StartedWasPut(s: Executor)
    requires InOrder(s)
    ensures forall i :: i in s.started ==> Some(i) in s.put
  {
    forall i | i in s.started ensures Some(i) in s.put {
      var k :| 0 <= k < |s.started| && s.started[k] == i;
      assert s.put[k] == Some(i);
    }
  }

  // ----- what happens otherwise -------------------------------------------------------------------------

  /** Two puts, and a turn of the dispatcher with the first. */
  function Twice(a: Item, b: Item): seq<Event> {
    [Put(Some(a))] + ([Put(Some(b))] + TURN)
  }

  /** Both wait, and the task of the first is there. */
  function AfterTwice(maxTask: nat, a: Item, b: Item): Executor {
    Start(maxTask).(queue := [Some(b)], current := if a.pooled then 1 else 0, futures := map[a.tid := a],
                    put := [Some(a), Some(b)], started := [a], running := {a}, waiting := {a, b})
  }

  lemma TwiceIsRun(maxTask: nat, a: Item, b: Item)
    requires a.coro != b.coro
    ensures Run(Start(maxTask), Twice(a, b)) == AfterTwice(maxTask, a, b)
  {
    var s0 := Start(maxTask);
    var s1 := s0.(queue := [Some(a)], put := [Some(a)], waiting := {a});
    var s2 := s0.(queue := [Some(a), Some(b)], put := [Some(a), Some(b)], waiting := {a, b});
    assert [] + [Some(a)] == [Some(a)] && [Some(a)] + [Some(b)] == [Some(a), Some(b)];
    assert [Some(a), Some(b)][1..] == [Some(b)] && {} + {a} == {a} && {a} + {b} == {a, b} && [] + [a] == [a];
    assert !Used(s0, a.coro) && !Used(s1, b.coro);
    hide Step, Run, Used;
    PutIsStep(s0, a);
    PutIsStep(s1, b);
    RunFirst(s0, Put(Some(a)), [Put(Some(b))] + TURN);
    RunFirst(s1, Put(Some(b)), TURN);
    TurnIsRun(s2, a);
  }

  /** The second of two putters with one id gets the task of the first. */
  lemma SameIdIsCrossed(maxTask: nat, a: Item, b: Item)
    requires a.tid == b.tid && a.coro != b.coro
    ensures Run(Start(maxTask), Twice(a, b) + [Collect(b)]).collected == [Handout(b, a)]
  {
    TwiceIsRun(maxTask, a, b);
    RunOne(Start(maxTask), Twice(a, b), Collect(b));
    CollectIsStep(AfterTwice(maxTask, a, b), b);
    assert [] + [Handout(b, a)] == [Handout(b, a)];
    hide Run, Step;
  }

  /** Nobody has left a task for the putter. */
  ghost predicate Forlorn(s: Executor, b: Item) {
    b in s.waiting && forall a :: Left(s, a) ==> a.tid != b.tid
  }

  lemma StaysForlorn(s: Executor, b: Item, e: Event)
    requires Inv(s) && Forlorn(s, b) && !e.Put?
    ensures Forlorn(Step(s, e), b)
  {
    NothingIsThere(s, b);
    LeftShrinks(s, e);
    hide Left, Used, Inv;
  }

  lemma NothingIsThere(s: Executor, b: Item)
    requires Inv(s) && Forlorn(s, b)
    ensures b.tid !in s.futures
  {
    assert b.tid in s.futures ==> Left(s, s.futures[b.tid]);
  }

  /** Whom nobody has left a task waits for ever, if nothing is put. */
  lemma {:induction false} NeverServed(s: Executor, b: Item, more: seq<Event>)
    requires Inv(s) && Forlorn(s, b) && NoPuts(more)
    ensures Inv(Run(s, more)) && Forlorn(Run(s, more), b)
  {
    if more != [] {
      var front, e := more[..|more| - 1], more[|more| - 1];
      NeverServed(s, b, front);
      hide Inv, Step, Forlorn;
      StepKeeps(Run(s, front), e);
      StaysForlorn(Run(s, front), b, e);
    }
  }

  /** When the second task is published before anyone is served, it replaces the first. */
  function Overwriting(a: Item, b: Item): seq<Event> {
    Twice(a, b) + ([Finish(a)] + (TURN + [Collect(a)]))
  }

  /** One of the putters is served then, with the second task, and the other one waits for ever. */
  lemma OverwrittenIsLost(maxTask: nat, a: Item, b: Item, more: seq<Event>)
    requires a.tid == b.tid && a.coro != b.coro && NoPuts(more)
    ensures var s := Run(Start(maxTask), Overwriting(a, b));
            s.collected == [Handout(a, b)] && b in Run(s, more).waiting
  {
    var s0, rest := AfterTwice(maxTask, a, b), [Finish(a)] + (TURN + [Collect(a)]);
    hide Run, Step, Inv, Left;
    TwiceIsRun(maxTask, a, b);
    RunOn(Start(maxTask), Twice(a, b), rest);
    RunKeeps(maxTask, Overwriting(a, b));
    SecondReplaces(maxTask, a, b);
    NeverServed(Run(s0, rest), b, more);
  }

  lemma SecondReplaces(maxTask: nat, a: Item, b: Item)
    requires a.tid == b.tid && a.coro != b.coro
    ensures var s := Run(AfterTwice(maxTask, a, b), [Finish(a)] + (TURN + [Collect(a)]));
            s.collected == [Handout(a, b)] && Forlorn(s, b)
  {
    var s0 := AfterTwice(maxTask, a, b);
    var s1 := AfterFinish(s0, a);
    var s2 := AfterTurn(s1, b);
    assert [Some(b)][1..] == [] && map[a.tid := a][b.tid := b] == map[b.tid := b];
    hide Step, Run;
    FinishIsStep(s0, a);
    RunFirst(s0, Finish(a), TURN + [Collect(a)]);
    TurnIsRun(s1, b);
    RunOn(s1, TURN, [Collect(a)]);
    OneStep(s2, Collect(a));
    CollectIsStep(s2, a);
    assert [] + [Handout(a, b)] == [Handout(a, b)];
  }
}
