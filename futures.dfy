/**
 * The Future wrapper of futures.py: naming, submitting an invocation to a
 * queue, executing a dequeued message, and polling for its result.
 *
 * What a wrapped Python function does when called is not modelled; it is an
 * `Interpreter` parameter, and `Callable` is only the identity of a function.
 */
module Futures {
  import opened Python
  import opened Serializers
  import opened Results
  import opened Stats
  import opened Queues

  /** A Python function: the module it was defined in, its `__name__`, and which code object it is. */
  datatype Callable = Callable(moduleName: string, fname: string, code: nat)

  /** Calls of user functions: the outcome of `f(*args, **kwargs)`, deterministic and with no effect on the framework's state. */
  type Interpreter = (Callable, seq<Value>, map<string, Value>) -> Outcome

  /** A Future: the wrapped function, its queue and its serializer. */
  datatype Future = Future(f: Callable, queueName: string, serializer: Format)

  /** The handle `async` returns (FutureResult): the invocation id and the task. */
  datatype FutureResult = FutureResult(uid: string, task: Future)

  /** The configured default queue (`settings.FUTURES_QUEUE_NAME`). */
  const DefaultQueueName := "futures.FutureQueue"

  /** `Future(f, queue_name=..., serializer=...)` with the constructor's defaults. */
  function NewFuture(f: Callable, queueName: Option<string>, serializer: Option<Format>): (r: Future)
    ensures r.f == f
    ensures queueName.None? ==> r.queueName == DefaultQueueName
    ensures queueName.Some? ==> r.queueName == queueName.value
    ensures serializer.None? ==> r.serializer == Dill
    ensures serializer.Some? ==> r.serializer == serializer.value
  {
    Future(f, queueName.GetOr(DefaultQueueName), serializer.GetOr(Dill))
  }

  /** "module.name": both parts can be read back around the '.' after the module. */
  function QualifiedName(f: Callable): (r: string)
    ensures |r| == |f.moduleName| + 1 + |f.fname|
    ensures r[..|f.moduleName|] == f.moduleName && r[|f.moduleName|] == '.'
    ensures r[|f.moduleName| + 1..] == f.fname
  {
    f.moduleName + "." + f.fname
  }

  /**
   * `Future.name`: "module.function". For a dot-free function name the last
   * '.' separates the two, so the name is split back unambiguously.
   */
  function Name(fut: Future): (r: string)
    ensures r == QualifiedName(fut.f)
    ensures '.' !in fut.f.fname ==> LastDot(r) == |fut.f.moduleName|
  {
    if '.' in fut.f.fname then QualifiedName(fut.f)
    else LastDotOfQualified(fut.f.moduleName, fut.f.fname); QualifiedName(fut.f)
  }

  /** The index of the last '.' in `s`, or -1 when there is none. */
  function LastDot(s: string): (i: int)
    ensures -1 <= i < |s|
  {
    if s == [] then -1
    else if s[|s| - 1] == '.' then |s| - 1
    else LastDot(s[..|s| - 1])
  }

  /** `LastDot` finds the last '.': none follows it, and -1 means there is none. */
  lemma {:induction false} LastDotIsLast(s: string)
    ensures LastDot(s) >= 0 ==> s[LastDot(s)] == '.' && '.' !in s[LastDot(s) + 1..]
    ensures LastDot(s) == -1 <==> '.' !in s
    decreases |s|
  {
    if s != [] && s[|s| - 1] != '.' {
      var t := s[..|s| - 1];
      assert s == t + [s[|s| - 1]];
      LastDotIsLast(t);
      var i := LastDot(t);
      assert LastDot(s) == i;
      if i >= 0 {
        assert s[i] == t[i];
        assert s[i + 1..] == t[i + 1..] + [s[|s| - 1]];
      }
    }
  }

  /** In "module.name" with a dot-free name, the last '.' is the one `Future.name` put there. */
  lemma {:induction false} LastDotOfQualified(m: string, f: string)
    requires '.' !in f
    ensures LastDot(m + "." + f) == |m|
    decreases |f|
  {
    var s := m + "." + f;
    if f != [] {
      var g := f[..|f| - 1];
      assert s[|s| - 1] == f[|f| - 1];
      assert s[..|s| - 1] == m + "." + g;
      LastDotOfQualified(m, g);
    }
  }

  /**
   * Two functions with dot-free `__name__`s get the same qualified name only
   * when module and name agree, so the registry key identifies the function.
   */
  lemma NameInjective(a: Callable, b: Callable)
    requires '.' !in a.fname && '.' !in b.fname
    requires QualifiedName(a) == QualifiedName(b)
    ensures a.moduleName == b.moduleName && a.fname == b.fname
  {
    var s := QualifiedName(a);
    LastDotOfQualified(a.moduleName, a.fname);
    LastDotOfQualified(b.moduleName, b.fname);
    assert |a.moduleName| == |b.moduleName|;
    assert a.moduleName == s[..|a.moduleName|] == b.moduleName;
    assert a.fname == s[|a.moduleName| + 1..] == b.fname;
  }

  /** `Future.__call__`: call the wrapped function directly. */
  function Call(fut: Future, apply: Interpreter, args: seq<Value>, kwargs: map<string, Value>): (r: Outcome)
    ensures r == apply(fut.f, args, kwargs)
  {
    apply(fut.f, args, kwargs)
  }

  /** `s.partition('.')`: the text before the first '.', the separator if any, and the rest. */
  function Partition(s: string): (r: (string, string, string))
    ensures '.' !in r.0
    ensures r.1 == "" || r.1 == "."
    ensures r.1 == "." ==> s == r.0 + "." + r.2
    ensures r.1 == "" ==> s == r.0 && r.2 == "" && '.' !in s
  {
    if s == [] then ("", "", "")
    else if s[0] == '.' then ("", ".", s[1..])
    else
      var rest := Partition(s[1..]);
      ([s[0]] + rest.0, rest.1, rest.2)
  }

  /** `partition` splits at the first '.': a dot-free label is recovered exactly. */
  lemma {:induction false} PartitionAtFirstDot(prefix: string, rest: string)
    requires '.' !in prefix
    ensures Partition(prefix + "." + rest) == (prefix, ".", rest)
  {
    if prefix != [] {
      var s := prefix + "." + rest;
      assert s[0] == prefix[0] && s[1..] == prefix[1..] + "." + rest;
      assert [prefix[0]] + prefix[1..] == prefix;
      PartitionAtFirstDot(prefix[1..], rest);
    }
  }

  /** The error `apps.get_model` raises for a model that is not installed. */
  function NoSuchModel(appLabel: string, modelName: string): Exc {
    Exc("LookupError", "App '" + appLabel + "' doesn't have a '" + modelName + "' model.")
  }

  /**
   * `get_queue_model("label.model")`: the installed queue model the name
   * denotes. A name without a model part asks for the model '', which no app
   * has.
   */
  function GetQueueModel(installed: set<QueueRef>, queueName: string): (r: Result<QueueRef>)
    ensures r.Ok? ==> r.value in installed && '.' !in r.value.appLabel && r.value.modelName != ""
    ensures r.Ok? ==> queueName == r.value.appLabel + "." + r.value.modelName
    ensures '.' !in queueName ==> r.Err?
    ensures r.Err? <==>
      QueueRef(Partition(queueName).0, Partition(queueName).2) !in installed || Partition(queueName).2 == ""
    ensures r.Err? ==> r.exc.kind == "LookupError"
  {
    var parts := Partition(queueName);
    var q := QueueRef(parts.0, parts.2);
    if q in installed && parts.2 != "" then Ok(q) else Err(NoSuchModel(parts.0, parts.2))
  }

  /**
   * The message `async` builds, or the error serializing the arguments raises:
   * positional arguments travel as a tuple, keyword arguments as a dict.
   */
  function MakeMessage(fut: Future, uid: string, args: seq<Value>, kwargs: map<string, Value>): (r: Result<Message>)
    ensures r.Ok? <==> Encodable(fut.serializer, VTuple(args)) && Encodable(fut.serializer, VDict(kwargs))
    ensures r.Ok? ==> r.value.uid == uid && r.value.name == Name(fut)
    ensures r.Ok? ==> Deserialize(fut.serializer, r.value.args) == Ok(Transported(fut.serializer, VTuple(args)))
    ensures r.Ok? ==> Deserialize(fut.serializer, r.value.kwargs) == Ok(Transported(fut.serializer, VDict(kwargs)))
  {
    match Serialize(fut.serializer, VTuple(args))
    case Err(e) => Err(e)
    case Ok(a) =>
      match Serialize(fut.serializer, VDict(kwargs))
      case Err(e) => Err(e)
      case Ok(k) => Ok(Message(uid, Name(fut), a, k))
  }

  /**
   * `Future.async(*args, **kwargs)` with the fresh uid given: exactly one
   * message goes onto the task's queue and the handle carries its uid; if the
   * arguments cannot be serialized or the queue is unknown nothing is enqueued.
   */
  method Submit(fut: Future, uid: string, args: seq<Value>, kwargs: map<string, Value>, store: QueueStore)
    returns (r: Result<FutureResult>)
    modifies store
    ensures MakeMessage(fut, uid, args, kwargs).Err? ==>
      r == Err(MakeMessage(fut, uid, args, kwargs).exc) && store.queues == old(store.queues)
    ensures MakeMessage(fut, uid, args, kwargs).Ok? && GetQueueModel(old(store.queues).Keys, fut.queueName).Err? ==>
      r == Err(GetQueueModel(old(store.queues).Keys, fut.queueName).exc) && store.queues == old(store.queues)
    ensures MakeMessage(fut, uid, args, kwargs).Ok? && GetQueueModel(old(store.queues).Keys, fut.queueName).Ok? ==>
      var q := GetQueueModel(old(store.queues).Keys, fut.queueName).value;
      && r == Ok(FutureResult(uid, fut))
      && store.queues == old(store.queues)[q := old(store.queues)[q] + [MakeMessage(fut, uid, args, kwargs).value]]
  {
    var message := MakeMessage(fut, uid, args, kwargs);
    if message.Err? {
      return Err(message.exc);
    }
    var model := GetQueueModel(store.queues.Keys, fut.queueName);
    if model.Err? {
      return Err(model.exc);
    }
    store.Enqueue(model.value, message.value);
    r := Ok(FutureResult(uid, fut));
  }

  /** FUTURES_REGISTRY: the futures known to this process, by name. */
  class Registry {
    var entries: map<string, Future>

    constructor ()
      ensures entries == map[]
    {
      entries := map[];
    }
  }

  /** What looking a message's name up yields when the registry has no such task. */
  const NoFuture := Exc("AttributeError", "'NoneType' object has no attribute 'serializer'")

  /** `future(*args, **kwargs)`: unpacking needs a sequence and a mapping. */
  function Invoke(fut: Future, apply: Interpreter, args: Value, kwargs: Value): (r: Outcome)
    ensures (args.VTuple? || args.VList?) && kwargs.VDict? ==> r == Call(fut, apply, args.items, kwargs.entries)
    ensures !(args.VTuple? || args.VList?) || !kwargs.VDict? ==> r.Err? && r.exc.kind == "TypeError"
  {
    if !(args.VTuple? || args.VList?) then Err(Exc("TypeError", "argument after * must be an iterable"))
    else if !kwargs.VDict? then Err(Exc("TypeError", "argument after ** must be a mapping"))
    else Call(fut, apply, args.items, kwargs.entries)
  }

  /** The cache, the stat table and what `execute` raised, after one execution. */
  datatype Step = Step(records: map<string, Record>, rows: map<string, Stat>, raised: Option<Exc>)

  /** Whether `execute(m)` gets as far as calling the function: the task is found and both blobs parse. */
  predicate Reaches(registry: map<string, Future>, m: Message) {
    && m.name in registry
    && Deserialize(registry[m.name].serializer, m.args).Ok?
    && Deserialize(registry[m.name].serializer, m.kwargs).Ok?
  }

  /** The outcome of the function call inside `execute(m)`. */
  function TaskOutcome(registry: map<string, Future>, m: Message, apply: Interpreter): Outcome
    requires Reaches(registry, m)
  {
    var fut := registry[m.name];
    Invoke(fut, apply, Deserialize(fut.serializer, m.args).value, Deserialize(fut.serializer, m.kwargs).value)
  }

  /** The `finally` of `execute`, after `set_result` wrote `written` or raised. */
  function Settle(records: map<string, Record>, rows: map<string, Stat>, written: Result<map<string, Record>>): Step {
    match written
    case Ok(c) => Step(c, rows, None)
    case Err(e) => Step(records, rows, Some(e))
  }

  /** `Future.execute(m)` at time `now`, as a transition of the result cache and the stat table. */
  function ExecuteSpec(registry: map<string, Future>, records: map<string, Record>, rows: map<string, Stat>,
                       m: Message, apply: Interpreter, now: int): (r: Step)
    ensures !Reaches(registry, m) ==> r.records == records && r.rows == rows && r.raised.Some?
    ensures r.raised.Some? ==> r.records == records
    ensures r.raised.None? ==> Key(m.uid) in r.records && r.records[Key(m.uid)].uid == m.uid
    ensures r.records.Keys <= records.Keys + {Key(m.uid)}
    ensures forall k :: k in records && k != Key(m.uid) ==> k in r.records && r.records[k] == records[k]
  {
    if m.name !in registry then Step(records, rows, Some(NoFuture))
    else
      var fut := registry[m.name];
      match Deserialize(fut.serializer, m.args)
      case Err(e) => Step(records, rows, Some(e))
      case Ok(args) =>
        match Deserialize(fut.serializer, m.kwargs)
        case Err(e) => Step(records, rows, Some(e))
        case Ok(kwargs) =>
          var started := RecordStart(rows, Name(fut), now);
          match Invoke(fut, apply, args, kwargs)
          case Ok(v) => Settle(records, RecordEnd(started, Name(fut), false), SetResultSpec(records, m.uid, v, 0, now))
          case Err(e) => Settle(records, RecordEnd(started, Name(fut), true), SetResultSpec(records, m.uid, ExcInfo(e), 0, now))
  }

  /**
   * Execution statistics: a message that reaches the call adds one to `total`,
   * leaves `running` as it was, and adds one to `failed` exactly when the
   * function raised; every other row is untouched. A message that stops
   * earlier touches neither table and raises.
   */
  lemma ExecuteStats(registry: map<string, Future>, records: map<string, Record>, rows: map<string, Stat>,
                     m: Message, apply: Interpreter, now: int)
    ensures var step := ExecuteSpec(registry, records, rows, m, apply, now);
      !Reaches(registry, m) ==> step.rows == rows && step.records == records && step.raised.Some?
    ensures Reaches(registry, m) ==>
      var step := ExecuteSpec(registry, records, rows, m, apply, now);
      var name := Name(registry[m.name]);
      && step.rows.Keys == rows.Keys + {name}
      && step.rows[name].total == Current(rows, name).total + 1
      && step.rows[name].running == Current(rows, name).running
      && step.rows[name].failed == Current(rows, name).failed + (if TaskOutcome(registry, m, apply).Err? then 1 else 0)
      && (forall n :: n in rows && n != name ==> step.rows[n] == rows[n])
  {
    if Reaches(registry, m) {
      StartEnd(rows, Name(registry[m.name]), now, TaskOutcome(registry, m, apply).Err?);
    }
  }

  /**
   * Execution results: a raise of an Exception is absorbed and stored under
   * the message's uid; a raise of a BaseException-only kind makes `set_result`
   * fail pickling the raw traceback, so `execute` raises that error and stores
   * nothing; a returned value is stored unless `set_result` rejects it, and
   * then `execute` raises that error. Other uids read as before.
   */
  lemma ExecuteResult(registry: map<string, Future>, records: map<string, Record>, rows: map<string, Stat>,
                      m: Message, apply: Interpreter, now: int, other: string)
    requires Reaches(registry, m)
    ensures var step := ExecuteSpec(registry, records, rows, m, apply, now);
      match TaskOutcome(registry, m, apply)
      case Err(e) =>
        && (e.kind !in BaseOnlyKinds ==> step.raised == None && GetResultSpec(step.records, m.uid) == Err(e))
        && (e.kind in BaseOnlyKinds ==> step.raised == Some(TracebackPickleError) && step.records == records)
      case Ok(v) =>
        && (step.raised == None <==> Prepare(v).Ok?)
        && (Prepare(v).Ok? ==> GetResultSpec(step.records, m.uid) == Decode(v))
        && (Prepare(v).Err? ==> step.records == records && step.raised == Some(Prepare(v).exc))
    ensures other != m.uid ==>
      GetResultSpec(ExecuteSpec(registry, records, rows, m, apply, now).records, other) == GetResultSpec(records, other)
  {
    match TaskOutcome(registry, m, apply)
    case Err(e) =>
      ExcInfoRoundTrip(records, m.uid, e, now);
      if e.kind !in BaseOnlyKinds {
        SetThenGet(records, m.uid, ExcInfo(e), 0, now, other);
      }
    case Ok(v) =>
      if Prepare(v).Ok? {
        SetThenGet(records, m.uid, v, 0, now, m.uid);
        SetThenGet(records, m.uid, v, 0, now, other);
      }
  }

  /** An outcome that survives the result store unchanged: `get_result` gives it back as it was. */
  predicate Reportable(out: Outcome) {
    match out
    case Ok(v) => Prepare(v).Ok? && !FailureShaped(v)
    case Err(e) => e.kind !in BaseOnlyKinds
  }

  /**
   * Submit then execute: for a registered future, reading the uid afterwards
   * gives what calling the function on the transported arguments gives, for
   * every reportable outcome; with the dill serializer those are the very
   * arguments submitted.
   */
  lemma SubmitThenExecute(registry: map<string, Future>, records: map<string, Record>, rows: map<string, Stat>,
                          fut: Future, uid: string, args: seq<Value>, kwargs: map<string, Value>,
                          apply: Interpreter, now: int)
    requires Name(fut) in registry && registry[Name(fut)] == fut
    requires MakeMessage(fut, uid, args, kwargs).Ok?
    ensures var m := MakeMessage(fut, uid, args, kwargs).value;
      var out := Call(fut, apply, Transported(fut.serializer, VTuple(args)).items,
                      Transported(fut.serializer, VDict(kwargs)).entries);
      var step := ExecuteSpec(registry, records, rows, m, apply, now);
      && Reaches(registry, m)
      && TaskOutcome(registry, m, apply) == out
      && (Reportable(out) ==> step.raised == None && GetResultSpec(step.records, uid) == out)
    ensures fut.serializer == Dill ==>
      TaskOutcome(registry, MakeMessage(fut, uid, args, kwargs).value, apply) == Call(fut, apply, args, kwargs)
    ensures fut.serializer == Json && (forall i :: 0 <= i < |args| ==> TupleFree(args[i])) && TupleFree(VDict(kwargs)) ==>
      TaskOutcome(registry, MakeMessage(fut, uid, args, kwargs).value, apply) == Call(fut, apply, args, kwargs)
  {
    var m := MakeMessage(fut, uid, args, kwargs).value;
    assert Reaches(registry, m);
    if fut.serializer == Json && (forall i :: 0 <= i < |args| ==> TupleFree(args[i])) && TupleFree(VDict(kwargs)) {
      assert JsonSafe(VTuple(args));
      JsonTupleBecomesList(args);
      JsonImageOfTupleFree(VDict(kwargs));
    }
    ExecuteResult(registry, records, rows, m, apply, now, uid);
  }

  /** `Future.execute(message)`, updating the shared cache and stat table in place. */
  method Execute(m: Message, registry: Registry, cache: ResultCache, stats: StatTable, apply: Interpreter, now: int)
    returns (raised: Option<Exc>)
    modifies cache, stats
    ensures var step := ExecuteSpec(registry.entries, old(cache.records), old(stats.rows), m, apply, now);
      cache.records == step.records && stats.rows == step.rows && raised == step.raised
  {
    if m.name !in registry.entries {
      return Some(NoFuture);
    }
    var fut := registry.entries[m.name];
    var args := Deserialize(fut.serializer, m.args);
    if args.Err? {
      return Some(args.exc);
    }
    var kwargs := Deserialize(fut.serializer, m.kwargs);
    if kwargs.Err? {
      return Some(kwargs.exc);
    }
    var name := Name(fut);
    stats.Start(name, now);
    var failed := false;
    var outcome := Invoke(fut, apply, args.value, kwargs.value);
    if outcome.Err? {
      failed := true;
      raised := cache.SetResult(m.uid, ExcInfo(outcome.exc), 0, now);
    } else {
      raised := cache.SetResult(m.uid, outcome.value, 0, now);
    }
    stats.Finish(name, failed);
  }

  /**
   * `FutureResult.result(timeout)`. `snapshots(k)` is the cache as the k-th
   * poll finds it (other workers fill it in meanwhile); each sleep is one
   * round. A timeout of 0 polls once, a positive one counts down, a negative
   * one polls until a result appears, so the caller must know one will.
   */
  method WaitForResult(h: FutureResult, timeout: int, snapshots: nat -> map<string, Record>) returns (r: Outcome, polls: nat)
    requires timeout < 0 ==> exists k :: GetResultSpec(snapshots(k), h.uid) != Ok(VNone)
    ensures 1 <= polls
    ensures r == GetResultSpec(snapshots(polls - 1), h.uid)
    ensures forall k :: 0 <= k < polls - 1 ==> GetResultSpec(snapshots(k), h.uid) == Ok(VNone)
    ensures timeout >= 0 ==> polls <= timeout + 1
    ensures r == Ok(VNone) ==> timeout >= 0 && polls == timeout + 1
  {
    ghost var arrival: nat := 0;
    if timeout < 0 {
      arrival :| GetResultSpec(snapshots(arrival), h.uid) != Ok(VNone);
    }
    var t := timeout;
    polls := 0;
    while true
      invariant timeout >= 0 ==> 0 <= t && t + polls == timeout
      invariant timeout < 0 ==> t == timeout && polls <= arrival
      invariant forall k :: 0 <= k < polls ==> GetResultSpec(snapshots(k), h.uid) == Ok(VNone)
      decreases if timeout >= 0 then t else arrival - polls
    {
      r := GetResultSpec(snapshots(polls), h.uid);
      polls := polls + 1;
      if r != Ok(VNone) {
        return;
      }
      if t == 0 {
        break;
      }
      if t > 0 {
        t := t - 1;
      }
    }
  }
}
