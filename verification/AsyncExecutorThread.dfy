/** The executor object. Its methods are the critical sections of the source, and the actions of the
    dispatcher between them; each is proved to be the event of that name in `AsyncExecutor`. */
module AsyncExecutorThread {
  import opened Wrappers
  import E = AsyncExecutor

  class Executor {
    const maxTask: nat
    var queue: seq<Option<E.Item>>
    var pc: E.Pc
    var current: int
    var futures: map<nat, E.Item>
    ghost var put: seq<Option<E.Item>>
    ghost var started: seq<E.Item>
    ghost var running: set<E.Item>
    ghost var finished: seq<E.Item>
    ghost var waiting: set<E.Item>
    ghost var collected: seq<E.Handout>

    ghost function View(): E.Executor
      reads this
    {
      E.Executor(maxTask, queue, pc, current, futures, put, started, running, finished, waiting,
                 collected)
    }

    constructor (maxTask: nat)
      ensures View() == E.Start(maxTask)
    {
      this.maxTask, queue, pc, current, futures := maxTask, [], E.Waiting, 0, map[];
      put, started, running, finished, waiting, collected := [], [], {}, [], {}, [];
    }

    /** `put` up to its `get`, under the lock. */
    method Put(entry: Option<E.Item>)
      requires E.Enabled(View(), E.Put(entry))
      modifies this
      ensures View() == E.Step(old(View()), E.Put(entry))
    {
      queue, put := queue + [entry], put + [entry];
      waiting := waiting + if entry.Some? then {entry.value} else {};
    }

    /** The dispatcher at its wait, under the lock: `taken` when the wait is over. */
    method Pop() returns (taken: bool)
      requires pc.Waiting?
      modifies this
      ensures taken == E.Enabled(old(View()), E.Pop)
      ensures View() == E.Step(old(View()), E.Pop)
    {
      if |queue| == 0 || current > maxTask {
        return false;
      }
      var item := queue[0];
      queue := queue[1..];
      pc := if item.None? then E.Stopped else E.Popped(item.value);
      taken := true;
    }

    method Submit()
      requires pc.Popped?
      modifies this
      ensures View() == E.Step(old(View()), E.Submit)
    {
      started, running := started + [pc.item], running + {pc.item};
      pc := E.Submitted(pc.item);
    }

    method Count()
      requires pc.Submitted?
      modifies this
      ensures View() == E.Step(old(View()), E.Count)
    {
      if pc.item.pooled {
        current := current + 1;
      }
      pc := E.Counted(pc.item);
    }

    method Publish()
      requires pc.Counted?
      modifies this
      ensures View() == E.Step(old(View()), E.Publish)
    {
      futures := futures[pc.item.tid := pc.item];
      pc := E.Waiting;
    }

    /** `done`, called by the completion of `item`. */
    method Done(ghost item: E.Item)
      requires item in running
      modifies this
      ensures View() == E.Step(old(View()), E.Finish(item))
    {
      current := current - 1;
      running, finished := running - {item}, finished + [item];
    }

    /** `get`, called by `putter`, once its wait is over. */
    method Get(tid: nat, ghost putter: E.Item) returns (task: E.Item)
      requires putter in waiting && putter.tid == tid && tid in futures
      modifies this
      ensures task == old(futures)[tid] && View() == E.Step(old(View()), E.Collect(putter))
    {
      task := futures[tid];
      futures := futures - {tid};
      waiting, collected := waiting - {putter}, collected + [E.Handout(putter, task)];
    }

    /** One turn of the dispatcher that nobody interrupts; it ends at the sentinel, or at the wait. */
    method Turn() returns (taken: bool)
      requires pc.Waiting?
      modifies this
      ensures pc.Waiting? || pc.Stopped?
      ensures View() == E.Run(old(View()), if taken && !pc.Stopped? then E.TURN else [E.Pop])
      ensures taken == E.Enabled(old(View()), E.Pop)
    {
      ghost var s := View();
      taken := Pop();
      E.RunOne(s, [], E.Pop);
      assert [] + [E.Pop] == [E.Pop];
      if taken && !pc.Stopped? {
        Submit();
        Count();
        Publish();
        E.RunOne(s, [E.Pop], E.Submit);
        E.RunOne(s, [E.Pop, E.Submit], E.Count);
        E.RunOne(s, [E.Pop, E.Submit, E.Count], E.Publish);
        assert [E.Pop] + [E.Submit] == [E.Pop, E.Submit];
        assert [E.Pop, E.Submit] + [E.Count] == [E.Pop, E.Submit, E.Count];
        assert [E.Pop, E.Submit, E.Count] + [E.Publish] == E.TURN;
      }
    }
  }
}
