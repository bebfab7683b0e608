# django-tpq futures, modelled in Dafny

This project models the deferred-call framework of django-tpq
(`django_tpq/futures`). A function is wrapped as a *Future* by the `@future`
decorator and filed in a process-wide registry under its name
`module.function`. `Future.async` serializes the call's arguments and enqueues a
message `{uid, name, args, kwargs}` on the Future's queue. The
`futures_executor` management command dequeues messages and runs
`Future.execute`. That method looks the task up, bumps the task's FutureStat row
(`total`, `running`, `failed`) and stores the outcome in the cache under
`"futures:" + uid`. A `FutureResult` handle polls that cache.

The Django cache, the FutureStat table, the queue tables and
`FUTURES_REGISTRY` are classes whose `map` fields the methods update in place.
Each mutating method is tied to a pure specification function
(`SetResultSpec`, `RecordStart`/`RecordEnd`, `ExecuteSpec`, `Register`,
`RunAll`), and the properties are proved about those functions.

Files, one module each:

- `python.dfy`: Python values, exceptions, `sys.exc_info()` triples.
- `serializers.dfy`: the dill and JSON serializers as an encode/decode pair.
- `results.dfy`: `set_result` and `get_result`.
- `stats.dfy`: the FutureStat counters.
- `queues.dfy`: the queue message and a FIFO queue store.
- `futures.dfy`: `Future.name`, `get_queue_model`, `async`, `execute`, `FutureResult.result`.
- `decorators.dfy`: the `future` decorator.
- `executor.dfy`: `Command.handle`.
- `scenarios.dfy`: the scenarios of the repository's tests.

Quirks of the code that the model keeps:

- The failure test `isinstance(obj, tuple) and isinstance(obj[1], Exception)` faults on a tuple shorter than two. So a task that returns `()` or a one-element tuple makes `set_result` raise IndexError. `execute` then propagates that error and stores no result (`Results.ShortTupleFaults`, `Futures.ExecuteResult`).
- A returned value shaped like `(x, SomeException(...), traceback)`, such as a `sys.exc_info()` the task returns instead of raising, is re-raised by `get_result` as if the task had failed (`Results.ValueShapedLikeFailure`). If the third item is not a traceback, tblib's `Traceback(tb)` raises AttributeError, and `execute` propagates it with no result stored (`Results.NonTracebackThirdItem`).
- A task that raises SystemExit, KeyboardInterrupt or GeneratorExit is caught by the bare `except:` and counted in `failed`. Its exc_info triple fails the `Exception` test, though, so the raw traceback reaches `dill.dumps`, which cannot pickle tracebacks. `set_result` raises, no result is stored, and `execute` raises that error after its `finally` (`Results.ExcInfoRoundTrip`, `Futures.ExecuteResult`).
- A stored `None` cannot be told apart from "no result yet" (`Results.StoredNoneLooksAbsent`).

Notes on the code:

- `set_result` writes with `cache.set`, which overwrites an earlier record for the same uid (`Results.Overwrite`).
- `execute` keys the stat row by the registered future's own `name`, not by the message's `name` field.
- The executor command imports `DEFAULT_QUEUE_NAME`, which `futures.py` does not define. The model takes the queue name as a parameter, and the Future's default queue is the configured `settings.FUTURES_QUEUE_NAME`. It is written here as `"futures.FutureQueue"`, the queue the tests dequeue from.
- `async` is a reserved word in current Python. The operation is called `Submit` here.

## Model

| member | source | states |
|---|---|---|
| Serializers.Serialize | django_tpq/futures/futures.py:98-117 | dill encodes exactly the values with no traceback inside; JSON encodes exactly the values with no exception class, instance or traceback inside; both raise TypeError otherwise; the blob records its format |
| Serializers.Deserialize | django_tpq/futures/futures.py:102-121 | reading succeeds exactly when the blob was written in the reader's format |
| Serializers.JsonImage | django_tpq/futures/futures.py:115-121 | a JSON round trip yields a JSON-encodable, tuple-free value; sequences stay sequences of the same length (tuples become lists), dicts stay dicts with the same keys |
| Serializers.JsonTupleBecomesList | django_tpq/futures/futures.py:115-121 | a tuple of tuple-free JSON values arrives as the list of exactly those values |
| Serializers.RoundTrip | django_tpq/futures/futures.py:98-121 | for every value the format can encode, deserialize(serialize(v)) gives back the transported value; with dill that is v itself |
| Serializers.JsonImageOfTupleFree | django_tpq/futures/futures.py:115-121 | a JSON round trip changes nothing in a value that holds no tuple |
| Serializers.JsonImageIdempotent | django_tpq/futures/futures.py:115-121 | re-encoding a JSON payload is stable |
| Results.Key | django_tpq/futures/futures.py:45 | the cache key is "futures:" followed by the uid, from which the uid can be read back |
| Results.KeyInjective | django_tpq/futures/futures.py:45-51 | distinct uids never share a cache key |
| Results.FailureTest | django_tpq/futures/futures.py:33 | the failure test raises IndexError exactly for tuples shorter than two, and holds exactly for tuples whose second item is an Exception |
| Results.Prepare | django_tpq/futures/futures.py:33-37 | set_result raises IndexError for a short tuple, ValueError for an Exception-bearing tuple that is not a triple, AttributeError when such a triple has no traceback last, and dill's TypeError when a traceback would be pickled raw (anywhere in a non-failure value, or in the first item of a failure triple); everything else is stored unchanged |
| Results.Decode | django_tpq/futures/futures.py:57-62 | a stored failure triple is re-raised as its exception; a non-tuple or a tuple without an Exception second item is returned; a short tuple raises IndexError |
| Results.SetResultSpec | django_tpq/futures/futures.py:31-45 | set_result succeeds exactly when the object is accepted; the new cache has the record {uid, obj, ts, progress} under the uid's key and keeps every other key |
| Results.GetResultSpec | django_tpq/futures/futures.py:48-62 | a missing record reads as None; a read raises only when a tuple is stored; a stored failure triple raises its exception; a stored non-tuple is returned as it is |
| Results.GetAbsent | django_tpq/futures/futures.py:50-53 | a uid with no record reads as None without raising |
| Results.SetThenGet | django_tpq/futures/futures.py:31-62 | after set_result, get_result returns the value, or raises the failure triple's exception; every other uid reads as before |
| Results.Overwrite | django_tpq/futures/futures.py:45 | a second set_result for the same uid replaces the first |
| Results.ExcInfoRoundTrip | django_tpq/futures/futures.py:33-61 | storing the exc_info of an Exception makes get_result raise the same kind and message; for a BaseException-only kind set_result raises dill's pickling error and stores nothing |
| Results.ValueShapedLikeFailure | django_tpq/futures/futures.py:33-61 | a returned value shaped (x, Exception, traceback), with no traceback inside x, is stored and reported as a raise |
| Results.NonTracebackThirdItem | django_tpq/futures/futures.py:33-36 | a returned (x, Exception, c) with c not a traceback makes set_result raise AttributeError and store nothing |
| Results.ShortTupleFaults | django_tpq/futures/futures.py:33 | set_result of an empty or one-element tuple raises IndexError |
| Results.StoredNoneLooksAbsent | django_tpq/futures/futures.py:31-53 | a stored None reads as None, whatever was stored before, exactly like a missing record |
| Results.ResultCache.SetResult | django_tpq/futures/futures.py:31-45 | the cache becomes SetResultSpec's new cache, or stays as it was and the error is raised |
| Results.ResultCache.GetResult | django_tpq/futures/futures.py:48-62 | returns GetResultSpec of the cache and changes nothing |
| Stats.NewStat | django_tpq/futures/futures.py:172 | a freshly created row has zero counters |
| Stats.RecordStart | django_tpq/futures/futures.py:172-174 | get_or_create then total+1, running+1 and last_seen=now on that row only, leaving failed alone |
| Stats.RecordEnd | django_tpq/futures/futures.py:189 | running-1, and failed+1 exactly after a raise, on that row only |
| Stats.StartEnd | django_tpq/futures/futures.py:172-189 | a bracketed run adds one to total, keeps running, adds one to failed exactly when the task raised, and leaves other rows alone |
| Stats.StartEndQuiescent | django_tpq/futures/futures.py:172-189 | with nothing in flight before, a bracketed run leaves running at 0 and failed at most total |
| Stats.StatTable.Start | django_tpq/futures/futures.py:172-174 | updates the table as RecordStart says |
| Stats.StatTable.Finish | django_tpq/futures/futures.py:189 | updates the table as RecordEnd says |
| Queues.QueueStore.Enqueue | django_tpq/futures/tests/test_futures.py:21-23 | the message joins the tail of its queue |
| Queues.QueueStore.Dequeue | django_tpq/futures/tests/test_futures.py:26-31 | returns and removes the head of the queue, or signals QueueEmpty and changes nothing |
| Futures.NewFuture | django_tpq/futures/futures.py:129-133 | the Future wraps f; the queue defaults to the configured queue and the serializer to dill |
| Futures.QualifiedName | django_tpq/futures/futures.py:143-144 | "module.name": the module name, then '.', then the function name, each readable back |
| Futures.Name | django_tpq/futures/futures.py:142-144 | the name is "module.function" of the wrapped function; for a dot-free function name, the last '.' of the Future's name follows the module name |
| Futures.LastDotIsLast | django_tpq/futures/futures.py:143-144 | the position LastDot finds holds a '.' with none after it, and it is -1 exactly when there is no '.' |
| Futures.Call | django_tpq/futures/futures.py:136-140 | calling the Future calls the wrapped function with the same arguments; queue and serializer play no part |
| Futures.LastDotOfQualified | django_tpq/futures/futures.py:143-144 | in module + "." + name with a dot-free name, the last '.' is the separator |
| Futures.NameInjective | django_tpq/futures/futures.py:143-144 | functions with dot-free names share a Future name only if module and name agree |
| Futures.Partition | django_tpq/futures/futures.py:66 | the part before the separator has no '.'; with a '.' present, label + "." + rest rebuilds the input; without one, the whole input is the label |
| Futures.PartitionAtFirstDot | django_tpq/futures/futures.py:66 | a dot-free label followed by "." and any rest is split back into exactly that label and rest |
| Futures.GetQueueModel | django_tpq/futures/futures.py:65-67 | resolves "label.model" to the installed queue model with that label and a non-empty model name, which rebuild the queue name; raises LookupError exactly when no such model is installed or the model part is empty, as for a name without '.' |
| Futures.MakeMessage | django_tpq/futures/futures.py:150-156 | the message carries the given uid and the Future's name; its args and kwargs read back with the Future's serializer as the transported tuple and dict; it fails exactly when the serializer cannot encode them |
| Futures.Submit | django_tpq/futures/futures.py:146-159 | on success, exactly one message is appended to the Future's queue and the handle carries its uid; if serialization or queue lookup fails, nothing is enqueued and that error is raised |
| Futures.Invoke | django_tpq/futures/futures.py:179 | unpacking a sequence and a dict calls the function, and anything else raises TypeError |
| Futures.ExecuteSpec | django_tpq/futures/futures.py:161-189 | a message that fails lookup or deserialization changes nothing and raises; a raise leaves the cache as it was; otherwise the message's uid has a record; no key but the message's uid's is written, and every other record is kept |
| Futures.ExecuteStats | django_tpq/futures/futures.py:168-189 | a message that reaches the call adds one to total, keeps running, and adds one to failed exactly when the function raised; other rows stay unchanged; a message that fails lookup or deserialization changes nothing and raises |
| Futures.ExecuteResult | django_tpq/futures/futures.py:176-189 | a raise of an Exception is absorbed and get_result re-raises it; a raise of a BaseException-only kind makes execute raise dill's pickling error with nothing stored; a returned value is stored unless set_result rejects it, which is then the error execute raises; other uids are unchanged |
| Futures.SubmitThenExecute | django_tpq/futures/futures.py:146-189 | for a registered Future, get_result after execute returns what calling the function on the transported arguments returns, or raises what it raises, for every outcome the store can represent; with dill those are the submitted arguments, and with JSON too when they hold no tuple inside |
| Futures.Execute | django_tpq/futures/futures.py:161-189 | updates cache and stat table and raises exactly as the ExecuteSpec transition says |
| Futures.WaitForResult | django_tpq/futures/futures.py:204-220 | polls at least once; returns the first poll that finds a record or raises; a timeout of 0 polls once, t > 0 at most t+1 times, and None comes back only after exactly t+1 empty polls; a negative timeout never gives up |
| Decorators.Register | django_tpq/futures/decorators.py:20 | the future is found under its name, replacing an earlier one; all other entries are kept; a registry filed by name stays so |
| Decorators.Decorate | django_tpq/futures/decorators.py:15-23 | returns a Future wrapping f with the given queue and serializer, defaulting to the configured queue and dill, and registers it |
| Decorators.DecoratedCallIsDirect | django_tpq/futures/futures.py:136-140 | calling the decorated object is calling f |
| Decorators.SameNameReplaces | django_tpq/futures/decorators.py:20 | decorating a second function with the same name leaves only the second registered |
| Executor.RunAll | django_tpq/futures/management/commands/futures_executor.py:36-43 | executing a batch writes only the results of its own messages and keeps every other cached result |
| Executor.StatCounts | django_tpq/futures/futures.py:172-189 | after a batch of executions, each task's total grew by its runs, failed by its raising runs, and running is unchanged |
| Executor.FreshCounts | django_tpq/futures/tests/test_futures.py:154-174 | from an empty table, k runs with j raises give total k, failed j, running 0 |
| Executor.RunAllQuiescent | django_tpq/futures/futures.py:172-189 | sequential executions keep running at 0 and failed at most total |
| Executor.Handle | django_tpq/futures/management/commands/futures_executor.py:31-43 | an unknown queue ends the command before any dequeue; otherwise the queue is drained in FIFO order, execute errors are swallowed, and the command ends with the empty-queue error; with once it returns after one message |
| Scenarios.AsyncThenExecuteFoo | django_tpq/futures/tests/test_futures.py:105-119 | foo(3, 6) reads None before execution and 9 after; stats 1 total, 0 failed, 0 running |
| Scenarios.ResultBeforeExecution | django_tpq/futures/tests/test_futures.py:112-113 | `r.result()` with the default timeout, before any worker wrote a result, reads None |
| Scenarios.AsyncThenExecuteJson | django_tpq/futures/tests/test_futures.py:66-83 | under JSON, foo(3, 6) reaches foo with the arguments 3 and 6, execute raises nothing, and the handle reads 9 |
| Scenarios.AsyncThenExecuteBar | django_tpq/futures/tests/test_futures.py:133-150 | bar(3, 6) re-raises ZeroDivisionError after execution; stats 1 total, 1 failed |
| Scenarios.SubmitFoo | django_tpq/futures/tests/test_executor.py:22 | submitting foo(3, 9) to an empty installed queue leaves exactly that message on it |
| Scenarios.DecorateAndSubmit | django_tpq/futures/tests/test_executor.py:7-22 | after decorating foo for an installed queue and submitting foo(3, 9), the queue holds exactly that message and the registry holds exactly foo |
| Scenarios.ExecutorFooRuns | django_tpq/futures/tests/test_executor.py:22-28 | one executor pass over the message of foo(3, 9) leaves 12 readable under its uid |
| Scenarios.ExecutorOnce | django_tpq/futures/tests/test_executor.py:22-28 | decorate, submit foo(3, 9), run the command once: the result reads 12 and the queue is empty |

## Left out

- Executor.Handle, Futures.ExecuteSpec, Executor.RunAll: task functions are deterministic and have no effect on the cache, the stat table or the queues. A task that submits further futures (which the command would then also dequeue) or reports progress through `set_result` is not modelled, so "only the message's own result is written" and "the queue ends as the unexecuted suffix" hold for `execute`'s own effects only.
- Python.IsExceptionInstance: the exception hierarchy is reduced to the class name, and only the built-in BaseException-only classes are told apart. A user-defined BaseException subclass (gevent's GreenletExit, say) is treated as an Exception, so the model stores and re-raises its exc_info where the source's `set_result` would fail pickling the raw traceback.
- Futures.WaitForResult: with a negative timeout the source polls forever when no result ever appears. The method requires that some poll finds a record, because the method is proved to terminate.
- Futures.WaitForResult: `time.sleep(1.0)` is one loop round. Fractional timeouts are not modelled; timeouts are integers.
- The worker-process and thread supervisor and signal handling. They are not in these files, and their point is concurrency.
- Cache TTL and eviction: records never expire here. The cache-backend selection (`caches[...]`) is also not modelled.
- dill pickling is identity on values. The only unpicklable objects modelled are tracebacks; dill's other pickling failures (frames, generators, open files) are not modelled. The JSON serializer's only changes are turning tuples into lists and rejecting non-JSON values.
- The tblib `Traceback` wrapper and `as_traceback` are the identity on an opaque traceback; wrapping anything else raises AttributeError. A raised failure carries only its kind and message.
- `uuid.uuid4`, `time.time` and `timezone.now` are parameters (uid, now). One `now` serves a whole executor run. Timestamps are integers.
- The `F()` expressions are sequential increments. Their atomicity across processes is a concurrency property this model does not capture.
- Logging calls are not modelled. Neither is `functools.update_wrapper`, which copies the function's metadata and merges its `__dict__` into the Future. Wrapping a callable whose attributes include `f`, `serializer` or `queue_name`, such as an already decorated Future, would overwrite the new Future's own fields; that case is not modelled.
- `apps.get_model` is a lookup in the set of installed queue models. Its case-insensitive model names and its other error kinds are not modelled.
- Futures.Invoke: `*args` decoded as a string or dict, which Python would iterate into characters or keys, is treated as a TypeError. A JSON producer outside Python could send such a message; the value model has no iteration protocol for these types.
- The queue is the tests' mock (django_tpq/futures/tests/test_futures.py:26-31), which ignores `wait`. A blocking dequeue, which a negative wait would make on an empty queue, is not modelled: there `Command.handle` without `once` never returns, while `Executor.Handle` ends with QueueEmpty.
- The queue backend's exclusive claim semantics are not modelled. The queue is a FIFO sequence, as in the tests' mock.
- django_tpq/futures/__init__.py and django_tpq/futures/tests.py are a superseded variant. The models files hold no logic. The queue manager exercised by test_models.py is an external backend. All of these are not part of this model.
