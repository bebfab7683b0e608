/**
 * The scenarios of the repository's tests (test_futures.py, test_executor.py),
 * stated over the model: `foo(a, b)` returns a + b, `bar(a, b)` divides by zero.
 */
module Scenarios {
  import opened Python
  import opened Serializers
  import opened Results
  import opened Stats
  import opened Queues
  import opened Futures
  import opened Decorators
  import opened Executor

  /** `foo` and `bar` of test_futures.py. */
  const Foo := Callable("futures.tests.test_futures", "foo", 0)
  const Bar := Callable("futures.tests.test_futures", "bar", 1)
  /** The separate `foo` of test_executor.py. */
  const ExecutorFoo := Callable("futures.tests.test_executor", "foo", 2)
  const DivisionByZero := Exc("ZeroDivisionError", "division by zero")

  /** The behaviour of the test functions; any other call is a TypeError. */
  function TestFunctions(f: Callable, args: seq<Value>, kwargs: map<string, Value>): Outcome {
    if |args| != 2 || kwargs != map[] then Err(Exc("TypeError", "takes 2 positional arguments"))
    else if (f == Foo || f == ExecutorFoo) && args[0].VInt? && args[1].VInt? then Ok(VInt(args[0].i + args[1].i))
    else if f == Bar then Err(DivisionByZero)
    else Err(Exc("TypeError", "unsupported operand type(s)"))
  }

  /** Two integer arguments and no keyword arguments can be pickled. */
  lemma IntPairPicklable(a: int, b: int)
    ensures !HoldsTraceback(VTuple([VInt(a), VInt(b)])) && !HoldsTraceback(VDict(map[]))
  {
    var items := [VInt(a), VInt(b)];
    forall i | 0 <= i < |items| ensures !HoldsTraceback(items[i]) {
    }
  }

  /**
   * test_execute: nothing is readable before execution; after `foo.async(3, 6)`
   * is executed the handle reads 9 and foo's row shows one run, no failure and
   * nothing running.
   */
  lemma AsyncThenExecuteFoo(uid: string, now: int)
    ensures var fut := NewFuture(Foo, None, None);
      var m := MakeMessage(fut, uid, [VInt(3), VInt(6)], map[]).value;
      var step := ExecuteSpec(map[Name(fut) := fut], map[], map[], m, TestFunctions, now);
      && MakeMessage(fut, uid, [VInt(3), VInt(6)], map[]).Ok?
      && GetResultSpec(map[], uid) == Ok(VNone)
      && GetResultSpec(step.records, uid) == Ok(VInt(9))
      && Current(step.rows, Name(fut)).total == 1
      && Current(step.rows, Name(fut)).failed == 0
      && Current(step.rows, Name(fut)).running == 0
  {
    var fut := NewFuture(Foo, None, None);
    var registry := map[Name(fut) := fut];
    IntPairPicklable(3, 6);
    SubmitThenExecute(registry, map[], map[], fut, uid, [VInt(3), VInt(6)], map[], TestFunctions, now);
    ExecuteStats(registry, map[], map[], MakeMessage(fut, uid, [VInt(3), VInt(6)], map[]).value, TestFunctions, now);
  }

  /**
   * test_execute, before the daemon runs: `r.result()` with the default timeout
   * of 0 polls once and reads None while no worker has written a result.
   */
  method ResultBeforeExecution(h: FutureResult) returns (r: Outcome)
    ensures r == Ok(VNone)
  {
    var polls;
    r, polls := WaitForResult(h, 0, (k: nat) => map[]);
  }

  /**
   * test_json: foo decorated with the JSON serializer; `(3, 6)` travels as
   * `[3, 6]`, reaches foo as those arguments, and the handle reads 9.
   */
  lemma AsyncThenExecuteJson(uid: string, now: int)
    ensures MakeMessage(NewFuture(Foo, None, Some(Json)), uid, [VInt(3), VInt(6)], map[]).Ok?
    ensures var fut := NewFuture(Foo, None, Some(Json));
      var m := MakeMessage(fut, uid, [VInt(3), VInt(6)], map[]).value;
      var step := ExecuteSpec(map[Name(fut) := fut], map[], map[], m, TestFunctions, now);
      && TaskOutcome(map[Name(fut) := fut], m, TestFunctions) == Call(fut, TestFunctions, [VInt(3), VInt(6)], map[])
      && step.raised == None
      && GetResultSpec(step.records, uid) == Ok(VInt(9))
  {
    var fut := NewFuture(Foo, None, Some(Json));
    var args := [VInt(3), VInt(6)];
    assert JsonSafe(VTuple(args)) && JsonSafe(VDict(map[]));
    assert forall i :: 0 <= i < |args| ==> TupleFree(args[i]);
    SubmitThenExecute(map[Name(fut) := fut], map[], map[], fut, uid, args, map[], TestFunctions, now);
    assert Call(fut, TestFunctions, args, map[]) == Ok(VInt(9));
  }

  /**
   * test_exception: after `bar.async(3, 6)` is executed the handle re-raises
   * ZeroDivisionError, execute itself raised nothing, and bar's row counts one
   * failure.
   */
  lemma AsyncThenExecuteBar(uid: string, now: int)
    ensures var fut := NewFuture(Bar, None, None);
      var m := MakeMessage(fut, uid, [VInt(3), VInt(6)], map[]).value;
      var step := ExecuteSpec(map[Name(fut) := fut], map[], map[], m, TestFunctions, now);
      && step.raised == None
      && GetResultSpec(step.records, uid) == Err(DivisionByZero)
      && Current(step.rows, Name(fut)).total == 1
      && Current(step.rows, Name(fut)).failed == 1
      && Current(step.rows, Name(fut)).running == 0
  {
    var fut := NewFuture(Bar, None, None);
    var registry := map[Name(fut) := fut];
    IntPairPicklable(3, 6);
    SubmitThenExecute(registry, map[], map[], fut, uid, [VInt(3), VInt(6)], map[], TestFunctions, now);
    ExecuteStats(registry, map[], map[], MakeMessage(fut, uid, [VInt(3), VInt(6)], map[]).value, TestFunctions, now);
  }

  /** One executor pass over the single message of `foo.async(3, 9)` stores 12 under its uid. */
  lemma ExecutorFooRuns(fut: Future, uid: string, now: int)
    requires fut.f == ExecutorFoo && fut.serializer == Dill
    ensures MakeMessage(fut, uid, [VInt(3), VInt(9)], map[]).Ok?
    ensures var m := MakeMessage(fut, uid, [VInt(3), VInt(9)], map[]).value;
      GetResultSpec(RunAll(map[Name(fut) := fut], map[], map[], [m], TestFunctions, now).records, uid) == Ok(VInt(12))
  {
    IntPairPicklable(3, 9);
    var m := MakeMessage(fut, uid, [VInt(3), VInt(9)], map[]).value;
    assert [m][..0] == [];
    SubmitThenExecute(map[Name(fut) := fut], map[], map[], fut, uid, [VInt(3), VInt(9)], map[], TestFunctions, now);
  }

  /**
   * `foo.async(3, 9)` on an installed, empty queue model `q`: the queue then
   * holds exactly that message.
   */
  method SubmitFoo(foo: Future, uid: string, q: QueueRef, queues: QueueStore) returns (m: Message)
    requires foo.f == ExecutorFoo && foo.serializer == Dill
    requires GetQueueModel({q}, foo.queueName) == Ok(q)
    requires queues.queues == map[q := []]
    modifies queues
    ensures MakeMessage(foo, uid, [VInt(3), VInt(9)], map[]) == Ok(m)
    ensures queues.queues == map[q := [m]]
  {
    IntPairPicklable(3, 9);
    assert queues.queues.Keys == {q};
    var handle := Submit(foo, uid, [VInt(3), VInt(9)], map[], queues);
    m := MakeMessage(foo, uid, [VInt(3), VInt(9)], map[]).value;
    assert queues.queues == map[q := []][q := [] + [m]];
    assert [] + [m] == [m] && map[q := []][q := [m]] == map[q := [m]];
  }

  /**
   * The set-up of test_command: a queue model `q` installed and empty, foo
   * decorated for it, and `foo.async(3, 9)` submitted.
   */
  method DecorateAndSubmit(uid: string, queueName: string, q: QueueRef)
    returns (queues: QueueStore, registry: Registry, foo: Future, m: Message)
    requires GetQueueModel({q}, queueName) == Ok(q)
    ensures fresh(queues) && fresh(registry)
    ensures foo == NewFuture(ExecutorFoo, Some(queueName), None)
    ensures MakeMessage(foo, uid, [VInt(3), VInt(9)], map[]) == Ok(m)
    ensures queues.queues == map[q := [m]]
    ensures registry.entries == map[Name(foo) := foo]
  {
    queues := new QueueStore({q});
    registry := new Registry();
    foo := Decorate(registry, ExecutorFoo, Some(queueName), None);
    assert queues.queues == map[q := []];
    m := SubmitFoo(foo, uid, q, queues);
  }

  /**
   * test_command: decorate foo for a queue, submit `foo.async(3, 9)`, run the
   * executor once on that queue, and read 12 back; the queue is then empty.
   */
  method ExecutorOnce(uid: string, now: int, appLabel: string, modelName: string)
    returns (r: Outcome, remaining: seq<Message>)
    requires '.' !in appLabel && modelName != ""
    ensures r == Ok(VInt(12)) && remaining == []
  {
    var queueName := appLabel + "." + modelName;
    var q := QueueRef(appLabel, modelName);
    PartitionAtFirstDot(appLabel, modelName);
    var queues, registry, foo, m := DecorateAndSubmit(uid, queueName, q);
    var cache := new ResultCache();
    var stats := new StatTable();
    var raised, executed := Handle(queueName, true, 0, queues, registry, cache, stats, TestFunctions, now);
    assert raised == None && executed == [m];
    remaining := queues.queues[q];
    ExecutorFooRuns(foo, uid, now);
    assert [m][..1] == [m];
    r := cache.GetResult(uid);
  }
}
