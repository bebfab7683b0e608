/**
 * The `futures_executor` management command: resolve the queue once, then
 * dequeue and execute messages, logging and swallowing whatever `execute`
 * raises, until a dequeue fails or, with `once`, after the first message.
 */
module Executor {
  import opened Python
  import opened Results
  import opened Stats
  import opened Queues
  import opened Futures

  /** The result cache and the stat table. */
  datatype Tables = Tables(records: map<string, Record>, rows: map<string, Stat>)

  /** The cache keys of the results of `msgs`. */
  function ResultKeys(msgs: seq<Message>): set<string> {
    set i | 0 <= i < |msgs| :: Key(msgs[i].uid)
  }

  /**
   * The tables after executing `msgs` in order, whatever each execution
   * raised: only the results of those messages are written, and every other
   * cached result is kept.
   */
  function RunAll(registry: map<string, Future>, records: map<string, Record>, rows: map<string, Stat>,
                  msgs: seq<Message>, apply: Interpreter, now: int): (r: Tables)
    ensures r.records.Keys <= records.Keys + ResultKeys(msgs)
    ensures forall k :: k in records && k !in ResultKeys(msgs) ==> k in r.records && r.records[k] == records[k]
    decreases |msgs|
  {
    if msgs == [] then Tables(records, rows)
    else
      var before := RunAll(registry, records, rows, msgs[..|msgs| - 1], apply, now);
      var step := ExecuteSpec(registry, before.records, before.rows, msgs[|msgs| - 1], apply, now);
      Tables(step.records, step.rows)
  }

  /** Whether `m` gets as far as calling the task filed under `name`. */
  predicate StartsTask(registry: map<string, Future>, m: Message, name: string) {
    Reaches(registry, m) && Name(registry[m.name]) == name
  }

  /** How many of `msgs` run the task `name`. */
  function Runs(registry: map<string, Future>, msgs: seq<Message>, name: string): nat
    decreases |msgs|
  {
    if msgs == [] then 0
    else Runs(registry, msgs[..|msgs| - 1], name) + (if StartsTask(registry, msgs[|msgs| - 1], name) then 1 else 0)
  }

  /** How many of `msgs` run the task `name` and see it raise. */
  function Raises(registry: map<string, Future>, msgs: seq<Message>, name: string, apply: Interpreter): nat
    decreases |msgs|
  {
    if msgs == [] then 0
    else
      var m := msgs[|msgs| - 1];
      Raises(registry, msgs[..|msgs| - 1], name, apply)
        + (if StartsTask(registry, m, name) && TaskOutcome(registry, m, apply).Err? then 1 else 0)
  }

  /**
   * After executing a batch of messages, a task's `total` has grown by the
   * number of its runs, `failed` by the number of runs that raised, and
   * `running` is back where it was.
   */
  lemma {:induction false} StatCounts(registry: map<string, Future>, records: map<string, Record>, rows: map<string, Stat>,
                                      msgs: seq<Message>, apply: Interpreter, now: int, name: string)
    ensures var after := Current(RunAll(registry, records, rows, msgs, apply, now).rows, name);
      && after.total == Current(rows, name).total + Runs(registry, msgs, name)
      && after.failed == Current(rows, name).failed + Raises(registry, msgs, name, apply)
      && after.running == Current(rows, name).running
    decreases |msgs|
  {
    if msgs != [] {
      var prefix, m := msgs[..|msgs| - 1], msgs[|msgs| - 1];
      StatCounts(registry, records, rows, prefix, apply, now, name);
      var before := RunAll(registry, records, rows, prefix, apply, now);
      ExecuteStats(registry, before.records, before.rows, m, apply, now);
    }
  }

  /**
   * The counters of a task from a fresh stat table: k runs of which j raised
   * give total k, failed j and running 0.
   */
  lemma FreshCounts(registry: map<string, Future>, records: map<string, Record>, msgs: seq<Message>,
                    apply: Interpreter, now: int, name: string)
    ensures var after := Current(RunAll(registry, records, map[], msgs, apply, now).rows, name);
      && after.total == Runs(registry, msgs, name)
      && after.failed == Raises(registry, msgs, name, apply)
      && after.running == 0
  {
    StatCounts(registry, records, map[], msgs, apply, now, name);
  }

  /** With nothing in flight before, nothing is in flight after, and no task has more failures than runs. */
  lemma {:induction false} RunAllQuiescent(registry: map<string, Future>, records: map<string, Record>,
                                           rows: map<string, Stat>, msgs: seq<Message>, apply: Interpreter, now: int)
    requires Quiescent(rows)
    ensures Quiescent(RunAll(registry, records, rows, msgs, apply, now).rows)
    decreases |msgs|
  {
    if msgs != [] {
      var prefix, m := msgs[..|msgs| - 1], msgs[|msgs| - 1];
      RunAllQuiescent(registry, records, rows, prefix, apply, now);
      var before := RunAll(registry, records, rows, prefix, apply, now);
      ExecuteStats(registry, before.records, before.rows, m, apply, now);
    }
  }

  /**
   * `Command.handle(queue_name=..., once=..., wait=...)`. Returns what the
   * command raises, if anything, and the messages it executed in order.
   * An unknown queue ends it before anything is dequeued. Otherwise the
   * queue is drained in FIFO order and the command ends with the empty-queue
   * error of the final dequeue; with `once` it returns after the first message.
   * Errors of `execute` are swallowed and change nothing else.
   */
  method Handle(queueName: string, once: bool, wait: int, queues: QueueStore, registry: Registry,
                cache: ResultCache, stats: StatTable, apply: Interpreter, now: int)
    returns (raised: Option<Exc>, executed: seq<Message>)
    modifies queues, cache, stats
    ensures GetQueueModel(old(queues.queues).Keys, queueName).Err? ==>
      && raised == Some(GetQueueModel(old(queues.queues).Keys, queueName).exc)
      && executed == []
      && queues.queues == old(queues.queues)
      && cache.records == old(cache.records) && stats.rows == old(stats.rows)
    ensures GetQueueModel(old(queues.queues).Keys, queueName).Ok? ==>
      var q := GetQueueModel(old(queues.queues).Keys, queueName).value;
      var pending := old(queues.queues)[q];
      var n := if once && pending != [] then 1 else |pending|;
      var after := RunAll(registry.entries, old(cache.records), old(stats.rows), pending[..n], apply, now);
      && executed == pending[..n]
      && queues.queues == old(queues.queues)[q := pending[n..]]
      && cache.records == after.records && stats.rows == after.rows
      && raised == (if once && pending != [] then None else Some(QueueEmpty))
  {
    var model := GetQueueModel(queues.queues.Keys, queueName);
    if model.Err? {
      return Some(model.exc), [];
    }
    var q := model.value;
    ghost var pending, start := queues.queues[q], queues.queues;
    ghost var records0, rows0 := cache.records, stats.rows;
    executed := [];
    while true
      invariant |executed| <= |pending| && executed == pending[..|executed|]
      invariant queues.queues == start[q := pending[|executed|..]]
      invariant once ==> executed == []
      invariant cache.records == RunAll(registry.entries, records0, rows0, executed, apply, now).records
      invariant stats.rows == RunAll(registry.entries, records0, rows0, executed, apply, now).rows
      decreases |pending| - |executed|
    {
      var m := queues.Dequeue(q, wait);
      if m.Err? {
        return Some(m.exc), executed;
      }
      // Whatever execute raises is logged and dropped.
      var _ := Execute(m.value, registry, cache, stats, apply, now);
      assert (executed + [m.value])[..|executed|] == executed;
      executed := executed + [m.value];
      if once {
        break;
      }
    }
    raised := None;
  }
}
