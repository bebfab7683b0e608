/**
 * The `@future(...)` decorator of decorators.py: wrap a function in a Future
 * and record it in the process-wide registry under its name.
 */
module Decorators {
  import opened Python
  import opened Serializers
  import opened Futures

  /** Every registry entry is filed under the name of the future it holds. */
  ghost predicate FiledByName(entries: map<string, Future>) {
    forall k :: k in entries ==> Name(entries[k]) == k
  }

  /**
   * `FUTURES_REGISTRY[wrapped.name] = wrapped`: the future is found under its
   * name, replacing any earlier future of that name, and every other entry is
   * kept; a registry filed by name stays so.
   */
  function Register(entries: map<string, Future>, wrapped: Future): (r: map<string, Future>)
    ensures r.Keys == entries.Keys + {Name(wrapped)}
    ensures r[Name(wrapped)] == wrapped
    ensures forall k :: k in entries && k != Name(wrapped) ==> r[k] == entries[k]
    ensures FiledByName(entries) ==> FiledByName(r)
  {
    entries[Name(wrapped):= wrapped]
  }

  /**
   * `future(queue_name=..., serializer=...)(f)`: the returned Future wraps `f`
   * with the given queue and serializer (the configured default queue and dill
   * when omitted) and is now the registry's entry for its name.
   */
  method Decorate(registry: Registry, f: Callable, queueName: Option<string>, serializer: Option<Format>)
    returns (wrapped: Future)
    modifies registry
    ensures wrapped.f == f
    ensures wrapped.queueName == (if queueName.Some? then queueName.value else DefaultQueueName)
    ensures wrapped.serializer == (if serializer.Some? then serializer.value else Dill)
    ensures registry.entries == Register(old(registry.entries), wrapped)
  {
    wrapped := NewFuture(f, queueName, serializer);
    registry.entries := registry.entries[Name(wrapped) := wrapped];
  }

  /** The decorated object, called directly, behaves exactly as the function it wraps. */
  lemma DecoratedCallIsDirect(f: Callable, queueName: Option<string>, serializer: Option<Format>,
                              apply: Interpreter, args: seq<Value>, kwargs: map<string, Value>)
    ensures Call(NewFuture(f, queueName, serializer), apply, args, kwargs) == apply(f, args, kwargs)
  {
  }

  /**
   * Decorating a second function with the same name: the earlier future can no
   * longer be executed, since messages naming it now reach the newer one.
   */
  lemma {:induction false} SameNameReplaces(entries: map<string, Future>, first: Future, second: Future)
    requires Name(first) == Name(second)
    ensures Register(Register(entries, first), second) == Register(entries, second)
  {
    var n := Name(second);
    assert entries[n := first][n := second] == entries[n := second];
  }
}
