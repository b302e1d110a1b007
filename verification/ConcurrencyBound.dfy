/** How many coroutines do run at once: the bound is reached, and what breaks it. */
module ConcurrencyBound {
  import opened Wrappers
  import opened AsyncExecutor

  /** The events of one item that is put and started while nothing else happens. */
  function Round(item: Item): seq<Event> {
    [Put(Some(item))] + TURN
  }

  function AfterRound(s: Executor, item: Item): Executor {
    s.(put := s.put + [Some(item)], started := s.started + [item], running := s.running + {item},
       current := s.current + (if item.pooled then 1 else 0), futures := s.futures[item.tid := item],
       waiting := s.waiting + {item})
  }

  lemma RoundIsRun(s: Executor, item: Item)
    requires s.pc == Waiting && s.queue == [] && s.current <= s.maxTask && !Used(s, item.coro)
    ensures Run(s, Round(item)) == AfterRound(s, item)
  {
    hide Step, Run, Used;
    PutIsStep(s, item);
    OneStep(s, Put(Some(item)));
    RunOn(s, [Put(Some(item))], TURN);
    assert s.queue + [Some(item)] == [Some(item)] && [Some(item)][1..] == [];
    TurnIsRun(Step(s, Put(Some(item))), item);
  }

  /** Between two items, when these have been put and started. */
  ghost predicate Idle(s: Executor, maxTask: nat, items: seq<Item>) {
    && s.maxTask == maxTask && s.pc == Waiting && s.queue == []
    && s.put == Wrap(items) && s.started == items && s.current == |s.running| - Unpooled(items)
  }

  /** They have been started one after the other, with completions only where the dispatcher had to
      wait for one. */
  ghost predicate Filled(s: Executor, maxTask: nat, items: seq<Item>) {
    Idle(s, maxTask, items) && |s.running| == Peak(maxTask, items)
  }

  /** All but the last of the items have been started, and the last can be. */
  ghost predicate Ready(s: Executor, maxTask: nat, items: seq<Item>) {
    && items != [] && Idle(s, maxTask, Front(items)) && s.current <= maxTask
    && |s.running| + 1 == Peak(maxTask, items)
  }

  lemma NextIsStarted(s: Executor, maxTask: nat, items: seq<Item>)
    requires Ready(s, maxTask, items) && Distinct(items) && AreStarted(s)
    ensures Filled(Run(s, Round(items[|items| - 1])), maxTask, items)
  {
    var last := items[|items| - 1];
    LastIsNew(s, items);
    hide Run, Step, Used, Peak, AreStarted;
    RoundIsRun(s, last);
    LastFills(s, maxTask, items);
  }

  lemma LastCounts(items: seq<Item>)
    requires items != []
    ensures var front, last := Front(items), items[|items| - 1];
            && items == front + [last] && Wrap(items) == Wrap(front) + [Some(last)]
            && Unpooled(items) == Unpooled(front) + if last.pooled then 0 else 1
  {
    var front, last := Front(items), items[|items| - 1];
    assert items == front + [last];
    WrapAppend(front, last);
    PooledAppend(front, last);
    hide Wrap, Front, Pooled;
  }

  lemma LastFills(s: Executor, maxTask: nat, items: seq<Item>)
    requires Ready(s, maxTask, items) && items[|items| - 1] !in s.running
    ensures Filled(AfterRound(s, items[|items| - 1]), maxTask, items)
  {
    hide Wrap, Peak, Front, Unpooled;
    LastCounts(items);
    assert |s.running + {items[|items| - 1]}| == |s.running| + 1;
  }

  lemma LastIsNew(s: Executor, items: seq<Item>)
    requires items != [] && Distinct(items) && s.put == Wrap(Front(items)) && s.started == Front(items) && AreStarted(s)
    ensures var last := items[|items| - 1]; last !in s.running && !Used(s, last.coro)
  {
    var front, last := Front(items), items[|items| - 1];
    assert forall i :: 0 <= i < |front| ==> front[i] == items[i];
    assert last !in front;
  }

  /** What the next item does to the peak, given the counter: one more if it can start at once, and
      else as many as before, for one must finish first. */
  lemma PeakGrows(maxTask: nat, items: seq<Item>, current: int)
    requires items != [] && current == Peak(maxTask, Front(items)) - Unpooled(Front(items))
    ensures Peak(maxTask, items) == Peak(maxTask, Front(items)) + if current <= maxTask then 1 else 0
    ensures current <= maxTask + 1
  {
    FrontPooled(Front(items));
    hide Pooled;
  }

  /** One completion, if the dispatcher has to wait for one. */
  lemma BecomesReady(s: Executor, maxTask: nat, items: seq<Item>) returns (wait: seq<Event>)
    requires items != [] && Filled(s, maxTask, Front(items))
    ensures Ready(Run(s, wait), maxTask, items)
  {
    PeakGrows(maxTask, items, s.current);
    hide Peak, Wrap, Front, Pooled;
    if s.current <= maxTask {
      wait := [];
    } else {
      assert |s.running| > 0;
      var i :| i in s.running;
      wait := [Finish(i)];
      RunOne(s, [], Finish(i));
      assert [] + wait == wait;
      FinishIsStep(s, i);
      hide Step, Run;
    }
  }

  /** Whatever is put, the peak is reached. */
  lemma {:induction false} PeakIsReached(maxTask: nat, items: seq<Item>)
    requires Distinct(items)
    ensures exists events :: Filled(Run(Start(maxTask), events), maxTask, items)
  {
    if items == [] {
      assert Filled(Run(Start(maxTask), []), maxTask, []);
    } else {
      PeakIsReached(maxTask, Front(items));
      var events :| Filled(Run(Start(maxTask), events), maxTask, Front(items));
      NextPeak(maxTask, items, events);
    }
  }

  lemma NextPeak(maxTask: nat, items: seq<Item>, events: seq<Event>)
    requires items != [] && Distinct(items) && Filled(Run(Start(maxTask), events), maxTask, Front(items))
    ensures exists more :: Filled(Run(Start(maxTask), more), maxTask, items)
  {
    hide Filled, Ready, Run, Round, Distinct, Front;
    var wait := BecomesReady(Run(Start(maxTask), events), maxTask, items);
    RunOn(Start(maxTask), events, wait);
    StartedRun(maxTask, events + wait);
    var more := Round(items[|items| - 1]);
    NextIsStarted(Run(Start(maxTask), events + wait), maxTask, items);
    RunOn(Start(maxTask), events + wait, more);
    assert Filled(Run(Start(maxTask), events + wait + more), maxTask, items);
  }

  lemma StartedRun(maxTask: nat, events: seq<Event>)
    ensures AreStarted(Run(Start(maxTask), events))
  {
    hide Run, AreStarted;
    RunKeeps(maxTask, events);
  }

  /** No interleaving that starts these items runs more than `max_task` + 1 of them at once, if and only
      if there are no more, or all before the last are pooled. */
  lemma BoundHoldsIff(maxTask: nat, items: seq<Item>)
    requires Distinct(items)
    ensures (forall events ::
               var s := Run(Start(maxTask), events); s.started == items ==> |s.running| <= maxTask + 1) <==>
            |items| <= maxTask + 1 || (forall i :: 0 <= i < |items| - 1 ==> items[i].pooled)
  {
    var front := Front(items);
    PooledAtMost(front);
    assert (forall i :: i in front ==> i.pooled) <==> (forall i :: 0 <= i < |items| - 1 ==> items[i].pooled) by {
      assert forall i :: 0 <= i < |items| - 1 ==> items[i] == front[i];
    }
    if Peak(maxTask, items) <= maxTask + 1 {
      forall events | Run(Start(maxTask), events).started == items
        ensures |Run(Start(maxTask), events).running| <= maxTask + 1
      {
        ConcurrencyIsBounded(maxTask, events);
      }
    } else {
      PeakIsReached(maxTask, items);
    }
  }

  /** Items that are not pooled, and then pooled ones. */
  function Batch(free: nat, pooled: nat): (items: seq<Item>)
    ensures |items| == free + pooled && Distinct(items)
  {
    seq(free + pooled, i requires 0 <= i < free + pooled => Item(0, i, i >= free))
  }

  lemma {:induction false} BatchIsPooled(free: nat, pooled: nat)
    ensures Pooled(Batch(free, pooled)) == pooled
  {
    if pooled > 0 {
      assert Batch(free, pooled)[..free + pooled - 1] == Batch(free, pooled - 1);
      BatchIsPooled(free, pooled - 1);
    } else if free > 0 {
      assert Batch(free, 0)[..free - 1] == Batch(free - 1, 0);
      BatchIsPooled(free - 1, 0);
    }
  }

  /** `max_task` + 1 coroutines do run at once, and one more for each item that is not pooled. */
  lemma BoundIsReached(maxTask: nat, free: nat)
    ensures exists events :: var s := Run(Start(maxTask), events);
                             |s.running| == maxTask + 1 + free && Unpooled(s.started) == free
  {
    var items := Batch(free, maxTask + 1);
    PeakIsReached(maxTask, items);
    BatchIsPooled(free, maxTask + 1);
    BatchIsPooled(free, maxTask);
    assert Front(items) == Batch(free, maxTask);
  }

  /** An item that is not pooled is not counted, but its completion is: with `max_task` 0, two pooled
      coroutines run at once. */
  lemma UnpooledBreaksTheBound()
    ensures var free, a, b := Item(0, 0, false), Item(0, 1, true), Item(0, 2, true);
            Run(Start(0), Round(free) + [Finish(free)] + Round(a) + Round(b)).running == {a, b}
  {
    var free, a, b := Item(0, 0, false), Item(0, 1, true), Item(0, 2, true);
    var s0 := AfterRound(Start(0), free);
    var s1 := s0.(current := -1, running := {}, finished := [free]);
    var s2 := AfterRound(s1, a);
    RoundIsRun(Start(0), free);
    assert Step(s0, Finish(free)) == s1;
    assert !Used(s1, 1) && !Used(s2, 2);
    RoundIsRun(s1, a);
    RoundIsRun(s2, b);
    hide Step, Used;
    RunOne(Start(0), Round(free), Finish(free));
    RunOn(Start(0), Round(free) + [Finish(free)], Round(a));
    RunOn(Start(0), Round(free) + [Finish(free)] + Round(a), Round(b));
  }
}
