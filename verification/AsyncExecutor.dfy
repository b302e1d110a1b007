/** The executor of coroutines: many putters, one dispatcher thread, and completions that call back.
    Every event is one critical section, or one action of the dispatcher between two of them; any
    interleaving of them is a sequence of events. */
module AsyncExecutor {
  import opened Octets
  import opened Wrappers

  /** What is put: `tid` is the transaction id of the putter's context, which other puts may share; `coro`
      names this put and its coroutine. */
  datatype Item = Item(tid: nat, coro: nat, pooled: bool)

  /** Where the dispatcher is: at its wait, with an item it has popped, with one whose coroutine it has
      submitted, with one it has counted as well, or out of its loop. */
  datatype Pc = Waiting | Popped(item: Item) | Submitted(item: Item) | Counted(item: Item) | Stopped

  /** What a `get` returned, and to whom. */
  datatype Handout = Handout(putter: Item, task: Item)

  /** The task of an item is named by the item, and so is its putter. `put`, `started`, `running`,
      `finished`, `waiting` and `collected` are the history: what was put, which coroutines were
      submitted, run and are finished, whose `get` has not returned, and which task each other
      putter got. */
  datatype Executor = Executor(
    maxTask: nat,
    queue: seq<Option<Item>>,
    pc: Pc,
    current: int,
    futures: map<nat, Item>,
    put: seq<Option<Item>>,
    started: seq<Item>,
    running: set<Item>,
    finished: seq<Item>,
    waiting: set<Item>,
    collected: seq<Handout>)

  function Start(maxTask: nat): Executor {
    Executor(maxTask, [], Waiting, 0, map[], [], [], {}, [], {}, [])
  }

  /** `None` is the sentinel `cleanup` puts. A `put` ends in a `get`, which is an event of its own. */
  datatype Event =
    | Put(entry: Option<Item>)
    | Pop
    | Submit
    | Count
    | Publish
    | Finish(item: Item)
    | Collect(putter: Item)

  predicate Used(s: Executor, coro: nat) {
    exists i :: 0 <= i < |s.put| && s.put[i].Some? && s.put[i].value.coro == coro
  }

  /** The conditions the threads wait for. Every put has its own name, and every completion calls
      `done`, once. */
  predicate Enabled(s: Executor, e: Event) {
    match e
    case Put(entry) => entry.Some? ==> !Used(s, entry.value.coro)
    case Pop => s.pc.Waiting? && s.queue != [] && s.current <= s.maxTask
    case Submit => s.pc.Popped?
    case Count => s.pc.Submitted?
    case Publish => s.pc.Counted?
    case Finish(item) => item in s.running
    case Collect(putter) => putter in s.waiting && putter.tid in s.futures
  }

  /** An event that is not enabled does not happen. */
  function Step(s: Executor, e: Event): Executor {
    if !Enabled(s, e) then s
    else match e
      case Put(entry) =>
        s.(queue := s.queue + [entry], put := s.put + [entry],
           waiting := s.waiting + if entry.Some? then {entry.value} else {})
      case Pop => s.(queue := s.queue[1..], pc := if s.queue[0].None? then Stopped else Popped(s.queue[0].value))
      case Submit =>
        s.(pc := Submitted(s.pc.item), started := s.started + [s.pc.item], running := s.running + {s.pc.item})
      case Count => s.(pc := Counted(s.pc.item), current := s.current + if s.pc.item.pooled then 1 else 0)
      case Publish => s.(pc := Waiting, futures := s.futures[s.pc.item.tid := s.pc.item])
      case Finish(item) => s.(current := s.current - 1, running := s.running - {item}, finished := s.finished + [item])
      case Collect(putter) =>
        s.(futures := s.futures - {putter.tid}, waiting := s.waiting - {putter},
           collected := s.collected + [Handout(putter, s.futures[putter.tid])])
  }

  function Run(s: Executor, events: seq<Event>): Executor {
    if events == [] then s else Step(Run(s, events[..|events| - 1]), events[|events| - 1])
  }

  // ----- what every event keeps ----------------------------------------------------------------------

  function Pooled(items: seq<Item>): nat {
    if items == [] then 0 else Pooled(items[..|items| - 1]) + if items[|items| - 1].pooled then 1 else 0
  }

  function Unpooled(items: seq<Item>): nat {
    PooledAtMost(items);
    |items| - Pooled(items)
  }

  /** All but the last. */
  function Front(items: seq<Item>): seq<Item> {
    if items == [] then [] else items[..|items| - 1]
  }

  function Wrap(items: seq<Item>): (r: seq<Option<Item>>)
    ensures |r| == |items| && forall i :: 0 <= i < |r| ==> r[i] == Some(items[i])
  {
    seq(|items|, i requires 0 <= i < |items| => Some(items[i]))
  }

  /** What has left the queue without a coroutine submitted for it. */
  function InHand(pc: Pc): seq<Option<Item>> {
    match pc
    case Popped(item) => [Some(item)]
    case Stopped => [None]
    case _ => []
  }

  /** First in, first started; the sentinel is what the dispatcher stops at. */
  ghost predicate InOrder(s: Executor) {
    s.put == Wrap(s.started) + InHand(s.pc) + s.queue
  }

  ghost predicate DistinctPuts(put: seq<Option<Item>>) {
    forall i, j :: 0 <= i < j < |put| && put[i].Some? && put[j].Some? ==> put[i].value.coro != put[j].value.coro
  }

  /** The counter, once the dispatcher is done with the item it has submitted, is the number of pooled
      coroutines started less all completions. */
  ghost predicate Counts(s: Executor) {
    && s.current == Pooled(s.started) - |s.finished| - (if s.pc.Submitted? && s.pc.item.pooled then 1 else 0)
    && Pooled(if s.pc.Popped? then s.started else Front(s.started)) - |s.finished| <= s.maxTask
    && |s.running| + |s.finished| == |s.started|
    && AreStarted(s)
  }

  ghost predicate AreStarted(s: Executor) {
    forall i :: i in s.running ==> i in s.started
  }

  /** The tasks that have been published. */
  function Published(s: Executor): seq<Item> {
    if (s.pc.Submitted? || s.pc.Counted?) && s.started != [] then s.started[..|s.started| - 1] else s.started
  }

  /** The putters whose `get` has returned. */
  ghost function Served(collected: seq<Handout>): set<Item> {
    set c | c in collected :: c.putter
  }

  predicate Holds(futures: map<nat, Item>, item: Item) {
    item.tid in futures && futures[item.tid] == item
  }

  /** Tasks are kept under their ids, and handed out once, to a putter with that id. */
  ghost predicate Tasks(published: seq<Item>, futures: map<nat, Item>, collected: seq<Handout>) {
    && (forall tid :: tid in futures ==> futures[tid].tid == tid && futures[tid] in published)
    && (forall c :: c in collected ==> c.task.tid == c.putter.tid && c.task in published && !Holds(futures, c.task))
    && (forall j, k :: 0 <= j < k < |collected| ==> collected[j].task != collected[k].task)
  }

  /** Everyone who has put waits or has got a task, once. */
  ghost predicate Putters(put: seq<Option<Item>>, waiting: set<Item>, collected: seq<Handout>) {
    && (forall i :: Some(i) in put <==> i in waiting || i in Served(collected))
    && waiting !! Served(collected)
    && (forall j, k :: 0 <= j < k < |collected| ==> collected[j].putter != collected[k].putter)
  }

  ghost predicate LastInHand(s: Executor) {
    s.pc.Submitted? || s.pc.Counted? ==> s.started != [] && s.started[|s.started| - 1] == s.pc.item
  }

  ghost predicate HandedOver(s: Executor) {
    && LastInHand(s)
    && Tasks(Published(s), s.futures, s.collected)
    && Putters(s.put, s.waiting, s.collected)
  }

  ghost predicate Inv(s: Executor) {
    InOrder(s) && DistinctPuts(s.put) && Counts(s) && HandedOver(s)
  }

  ghost predicate Distinct(items: seq<Item>) {
    forall j, k :: 0 <= j < k < |items| ==> items[j].coro != items[k].coro
  }

  // ----- order and identity -----------------------------------------------------------------------------

  lemma WrapAppend(items: seq<Item>, item: Item)
    ensures Wrap(items + [item]) == Wrap(items) + [Some(item)]
  {
  }

  lemma InOrderKept(s: Executor, e: Event)
    requires InOrder(s) && DistinctPuts(s.put)
    ensures InOrder(Step(s, e)) && DistinctPuts(Step(s, e).put)
  {
    if Enabled(s, e) {
      match e
      case Put(entry) => Associative(Wrap(s.started) + InHand(s.pc), s.queue, [entry]);
      case Pop =>
        assert s.queue == [s.queue[0]] + s.queue[1..];
        assert InHand(Step(s, e).pc) == [s.queue[0]];
      case Submit => WrapAppend(s.started, s.pc.item);
      case _ =>
    }
  }

  /** What was started is distinct. */
  lemma StartedIsDistinct(s: Executor)
    requires InOrder(s) && DistinctPuts(s.put)
    ensures Distinct(s.started)
  {
    assert forall j :: 0 <= j < |s.started| ==> s.put[j] == Some(s.started[j]);
  }

  /** What the dispatcher has in hand was not started before. */
  lemma InHandIsNew(s: Executor)
    requires InOrder(s) && DistinctPuts(s.put) && s.pc.Popped?
    ensures forall i :: i in s.started ==> i.coro != s.pc.item.coro
  {
    var n := |s.started|;
    assert forall j :: 0 <= j < n ==> s.put[j] == Some(s.started[j]);
    assert s.put[n] == Some(s.pc.item);
  }

  // ----- the counter -----------------------------------------------------------------------------------

  lemma PooledAppend(items: seq<Item>, item: Item)
    ensures Pooled(items + [item]) == Pooled(items) + if item.pooled then 1 else 0
  {
    assert (items + [item])[..|items|] == items;
  }

  lemma CountsKept(s: Executor, e: Event)
    requires Counts(s) && InOrder(s) && DistinctPuts(s.put)
    ensures Counts(Step(s, e))
  {
    if Enabled(s, e) {
      FrontPooled(s.started);
      if e.Submit? {
        SubmitCounts(s);
      } else {
        hide Used, InOrder, DistinctPuts, Pooled, Front;
      }
    }
  }

  lemma SubmitCounts(s: Executor)
    requires Counts(s) && InOrder(s) && DistinctPuts(s.put) && s.pc.Popped?
    ensures Counts(Step(s, Submit))
  {
    InHandIsNew(s);
    hide Used, InOrder, DistinctPuts;
    var started := s.started + [s.pc.item];
    assert Step(s, Submit) == s.(pc := Submitted(s.pc.item), started := started, running := s.running + {s.pc.item});
    hide Step;
    PooledAppend(s.started, s.pc.item);
    hide Pooled;
    assert Front(started) == s.started;
    assert s.pc.item !in s.started;
  }

  // ----- handing over ------------------------------------------------------------------------------------

  lemma HandedOverKept(s: Executor, e: Event)
    requires HandedOver(s) && InOrder(s) && DistinctPuts(s.put)
    ensures HandedOver(Step(s, e))
  {
    assert e.Publish? && Enabled(s, e) ==> s.pc.Counted?;
    assert e.Collect? && Enabled(s, e) ==> e.putter in s.waiting && e.putter.tid in s.futures;
    hide Tasks, Putters, InOrder, DistinctPuts, Published, Enabled, Step;
    if !Enabled(s, e) {
      NotEnabled(s, e);
    } else if e.Publish? {
      PublishHandsOver(s);
    } else {
      PuttersKept(s, e);
      PublishedKept(s, e);
      if e.Collect? {
        CollectIsStep(s, e.putter);
        TaskIsCollected(Published(s), s.futures, s.collected, e.putter);
      }
    }
  }

  lemma NotEnabled(s: Executor, e: Event)
    ensures !Enabled(s, e) ==> Step(s, e) == s
  {
    hide Enabled;
  }

  /** Only publishing publishes, and only collecting takes a task. */
  lemma PublishedKept(s: Executor, e: Event)
    requires Enabled(s, e) && !e.Publish? && LastInHand(s)
    ensures var s' := Step(s, e);
            && LastInHand(s') && Published(s') == Published(s)
            && (!e.Collect? ==> s'.futures == s.futures && s'.collected == s.collected)
  {
    hide Used;
    assert e.Submit? ==> (s.started + [s.pc.item])[..|s.started|] == s.started;
  }

  lemma CollectIsStep(s: Executor, putter: Item)
    requires putter in s.waiting && putter.tid in s.futures
    ensures Step(s, Collect(putter)) ==
            s.(futures := s.futures - {putter.tid}, waiting := s.waiting - {putter},
               collected := s.collected + [Handout(putter, s.futures[putter.tid])])
  {
    hide Used;
  }

  lemma PublishIsStep(s: Executor)
    requires s.pc.Counted?
    ensures Step(s, Publish) == s.(pc := Waiting, futures := s.futures[s.pc.item.tid := s.pc.item])
  {
    hide Used;
  }

  lemma LastIsInHand(s: Executor)
    requires HandedOver(s) && (s.pc.Submitted? || s.pc.Counted?)
    ensures s.started == Published(s) + [s.pc.item]
  {
    hide Tasks, Putters;
  }

  lemma PuttersKept(s: Executor, e: Event)
    requires Putters(s.put, s.waiting, s.collected) && Enabled(s, e)
    ensures var s' := Step(s, e); Putters(s'.put, s'.waiting, s'.collected)
  {
    match e
    case Put(entry) =>
      assert forall i :: Some(i) in s.put + [entry] <==> Some(i) in s.put || Some(i) == entry;
    case Collect(putter) =>
      var all := s.collected + [Handout(putter, s.futures[putter.tid])];
      assert forall c :: c in all <==> c in s.collected || c == Handout(putter, s.futures[putter.tid]);
      assert Served(all) == Served(s.collected) + {putter};
      assert forall k :: 0 <= k < |s.collected| ==> s.collected[k] in s.collected;
    case _ =>
  }

  lemma PublishHandsOver(s: Executor)
    requires HandedOver(s) && InOrder(s) && DistinctPuts(s.put) && s.pc.Counted?
    ensures HandedOver(Step(s, Publish))
  {
    StartedIsDistinct(s);
    LastIsInHand(s);
    hide Tasks, Putters, InOrder, Distinct, DistinctPuts;
    TaskIsPublished(Published(s), s.futures, s.collected, s.pc.item);
    PublishIsStep(s);
    hide Step;
    assert Published(Step(s, Publish)) == s.started;
    hide Published;
  }

  lemma TaskIsPublished(published: seq<Item>, futures: map<nat, Item>, collected: seq<Handout>, item: Item)
    requires Tasks(published, futures, collected)
    requires Distinct(published + [item])
    ensures Tasks(published + [item], futures[item.tid := item], collected)
  {
    var all := published + [item];
    assert item !in published by {
      forall i | i in published ensures i.coro != item.coro {
        var j :| 0 <= j < |published| && published[j] == i;
        assert all[j] == i && all[|published|] == item;
      }
    }
    assert forall i :: i in all <==> i in published || i == item;
  }

  lemma TaskIsCollected(published: seq<Item>, futures: map<nat, Item>, collected: seq<Handout>, putter: Item)
    requires Tasks(published, futures, collected) && putter.tid in futures
    ensures Tasks(published, futures - {putter.tid}, collected + [Handout(putter, futures[putter.tid])])
  {
    var now := Handout(putter, futures[putter.tid]);
    var all := collected + [now];
    assert forall c :: c in all <==> c in collected || c == now;
    assert forall k :: 0 <= k < |collected| ==> collected[k] in collected;
  }

  // ----- every run ------------------------------------------------------------------------------------------

  lemma StepKeeps(s: Executor, e: Event)
    requires Inv(s)
    ensures Inv(Step(s, e)) && Step(s, e).maxTask == s.maxTask
  {
    assert Step(s, e).maxTask == s.maxTask;
    hide InOrder, DistinctPuts, Counts, HandedOver, Step;
    InOrderKept(s, e);
    CountsKept(s, e);
    HandedOverKept(s, e);
  }

  lemma {:induction false} RunKeeps(maxTask: nat, events: seq<Event>)
    ensures Inv(Run(Start(maxTask), events)) && Run(Start(maxTask), events).maxTask == maxTask
  {
    if events == [] {
      assert Wrap([]) == [];
    } else {
      hide Inv;
      RunKeeps(maxTask, events[..|events| - 1]);
      StepKeeps(Run(Start(maxTask), events[..|events| - 1]), events[|events| - 1]);
    }
  }

  lemma {:induction false} PooledAtMost(items: seq<Item>)
    ensures Pooled(items) <= |items|
    ensures (forall i :: i in items ==> i.pooled) <==> Pooled(items) == |items|
  {
    if items != [] {
      var front, last := items[..|items| - 1], items[|items| - 1];
      PooledAtMost(front);
      assert items == front + [last];
    }
  }

  /** The most that can run at once when these items are started: the items before the last that are
      not pooled come on top of `max_task` and the one that is popped last. */
  function Peak(maxTask: nat, items: seq<Item>): nat {
    Min(|items|, maxTask + 1 + Unpooled(Front(items)))
  }

  /** In every interleaving, completions that beat the increment included. */
  lemma ConcurrencyIsBounded(maxTask: nat, events: seq<Event>)
    ensures var s := Run(Start(maxTask), events);
            && |s.running| + |s.finished| == |s.started|
            && |s.running| <= Peak(maxTask, s.started)
            && ((forall i :: i in s.started ==> i.pooled) ==> |s.running| <= maxTask + 1)
  {
    RunKeeps(maxTask, events);
    var s := Run(Start(maxTask), events);
    FrontPooled(s.started);
    PooledAtMost(s.started);
  }

  lemma FrontPooled(items: seq<Item>)
    ensures Pooled(Front(items)) <= Pooled(items) <= Pooled(Front(items)) + 1
    ensures Unpooled(Front(items)) <= Unpooled(items)
  {
  }

  /** The counter is the number of running coroutines, less all that were started unpooled, less the
      one the dispatcher has submitted and not counted yet. So it is exact when all are pooled. */
  lemma CounterIsExact(maxTask: nat, events: seq<Event>)
    ensures var s := Run(Start(maxTask), events);
            && s.current == |s.running| - Unpooled(s.started) - (if s.pc.Submitted? && s.pc.item.pooled then 1 else 0)
            && ((forall i :: i in s.started ==> i.pooled) <==> Unpooled(s.started) == 0)
  {
    RunKeeps(maxTask, events);
    PooledAtMost(Run(Start(maxTask), events).started);
  }

  /** Coroutines are started in the order they were put, each once, and the sentinel is where it stops:
      whatever was put before it is started, and nothing after. */
  lemma StartedInOrder(maxTask: nat, events: seq<Event>)
    ensures var s := Run(Start(maxTask), events);
            var n := |s.started|;
            && n <= |s.put| && s.put[..n] == Wrap(s.started)
            && (s.pc.Stopped? ==> n < |s.put| && s.put[n] == None)
            && Distinct(s.started)
  {
    RunKeeps(maxTask, events);
    var s := Run(Start(maxTask), events);
    StartedIsDistinct(s);
    assert s.put[..|s.started|] == Wrap(s.started);
  }

  /** After the sentinel no coroutine is started any more. */
  lemma {:induction false} StoppedForGood(s: Executor, events: seq<Event>)
    requires s.pc.Stopped?
    ensures Run(s, events).pc.Stopped? && Run(s, events).started == s.started
  {
    if events != [] {
      StoppedForGood(s, events[..|events| - 1]);
    }
  }

  /** Each `get` returns once at most, to a putter that has waited, the task of an item that was started and
      has the same transaction id; and no task is returned twice. */
  lemma EachGetsOneTask(maxTask: nat, events: seq<Event>)
    ensures var s := Run(Start(maxTask), events);
            && (forall c :: c in s.collected ==>
                 c.task.tid == c.putter.tid && Some(c.putter) in s.put && c.task in s.started)
            && (forall i :: Some(i) in s.put ==> (i in s.waiting <==> i !in Served(s.collected)))
            && (forall j, k :: 0 <= j < k < |s.collected| ==>
                 && s.collected[j].putter != s.collected[k].putter
                 && s.collected[j].task != s.collected[k].task)
  {
    RunKeeps(maxTask, events);
    var s := Run(Start(maxTask), events);
    PublishedAre(s);
    hide InOrder, DistinctPuts, Counts, Run, Published;
    assert forall c :: c in s.collected ==> c.putter in Served(s.collected);
  }

  lemma PublishedAre(s: Executor)
    requires s.pc.Submitted? || s.pc.Counted? ==> s.started != [] && s.started[|s.started| - 1] == s.pc.item
    ensures forall i :: i in s.started ==> i in Published(s) || ((s.pc.Submitted? || s.pc.Counted?) && i == s.pc.item)
    ensures forall i :: i in Published(s) ==> i in s.started
  {
    if s.started != [] {
      assert s.started == s.started[..|s.started| - 1] + [s.started[|s.started| - 1]];
    }
  }

  lemma {:induction false} RunOn(s: Executor, a: seq<Event>, b: seq<Event>)
    ensures Run(s, a + b) == Run(Run(s, a), b)
  {
    if b == [] {
      assert a + b == a;
    } else {
      assert (a + b)[..|a + b| - 1] == a + b[..|b| - 1];
      RunOn(s, a, b[..|b| - 1]);
    }
  }

  lemma RunOne(s: Executor, events: seq<Event>, e: Event)
    ensures Run(s, events + [e]) == Step(Run(s, events), e)
  {
    assert (events + [e])[..|events|] == events;
  }

  function AfterFinish(s: Executor, i: Item): Executor {
    s.(current := s.current - 1, running := s.running - {i}, finished := s.finished + [i])
  }

  lemma FinishIsStep(s: Executor, i: Item)
    requires i in s.running
    ensures Step(s, Finish(i)) == AfterFinish(s, i)
  {
    hide Used;
  }

  /** A turn of the dispatcher. */
  const TURN := [Pop, Submit, Count, Publish]

  function AfterTurn(s: Executor, item: Item): Executor
    requires s.queue != []
  {
    s.(queue := s.queue[1..], started := s.started + [item], running := s.running + {item},
       current := s.current + (if item.pooled then 1 else 0), futures := s.futures[item.tid := item])
  }

  lemma TurnIsRun(s: Executor, item: Item)
    requires s.pc.Waiting? && s.queue != [] && s.queue[0] == Some(item) && s.current <= s.maxTask
    ensures Run(s, TURN) == AfterTurn(s, item)
  {
    var s1 := s.(queue := s.queue[1..], pc := Popped(item));
    var s2 := s1.(pc := Submitted(item), started := s.started + [item], running := s.running + {item});
    var s3 := s2.(pc := Counted(item), current := s.current + if item.pooled then 1 else 0);
    assert Step(s, Pop) == s1 && Step(s1, Submit) == s2;
    assert Step(s2, Count) == s3 && Step(s3, Publish) == AfterTurn(s, item);
    hide Step;
    FourSteps(s, Pop, s1, Submit, s2, Count, s3, Publish);
  }

  lemma FourSteps(s: Executor, a: Event, s1: Executor, b: Event, s2: Executor, c: Event, s3: Executor, d: Event)
    requires Step(s, a) == s1 && Step(s1, b) == s2 && Step(s2, c) == s3
    ensures Run(s, [a, b, c, d]) == Step(s3, d)
  {
    assert [a] + [b] == [a, b] && [c] + [d] == [c, d] && [a, b] + [c, d] == [a, b, c, d];
    hide Step, Run;
    RunOn(s, [a, b], [c, d]);
    OneStep(s, a);
    RunOne(s, [a], b);
    OneStep(s2, c);
    RunOne(s2, [c], d);
  }

  lemma OneStep(s: Executor, e: Event)
    ensures Run(s, [e]) == Step(s, e)
  {
    assert [e][..0] == [] && Run(s, []) == s;
    hide Step;
  }

  lemma PutIsStep(s: Executor, item: Item)
    requires !Used(s, item.coro)
    ensures Step(s, Put(Some(item))) ==
            s.(queue := s.queue + [Some(item)], put := s.put + [Some(item)], waiting := s.waiting + {item})
  {
    hide Used;
  }
}
