/**
 * The result store of futures.py: `set_result` writes a record under
 * "futures:" + uid, `get_result` reads it back and re-raises a stored failure.
 * The Django cache is a map from key to record.
 */
module Results {
  import opened Python

  /** The cached record: `{uid, obj, ts, progress}`. */
  datatype Record = Record(uid: string, obj: Value, ts: int, progress: int)

  const KeyPrefix := "futures:"

  /** The cache key of an invocation's result. */
  function Key(uid: string): (k: string)
    ensures |k| == |KeyPrefix| + |uid| && k[..|KeyPrefix|] == KeyPrefix && k[|KeyPrefix|..] == uid
  {
    KeyPrefix + uid
  }

  /** Distinct invocations never share a cache key. */
  lemma KeyInjective(a: string, b: string)
    requires Key(a) == Key(b)
    ensures a == b
  {
    assert a == Key(a)[|KeyPrefix|..];
  }

  /**
   * The test `isinstance(obj, tuple) and isinstance(obj[1], Exception)` that
   * both `set_result` and `get_result` apply; indexing a tuple shorter than
   * two raises IndexError.
   */
  function FailureTest(obj: Value): (r: Result<bool>)
    ensures r.Err? <==> obj.VTuple? && |obj.items| < 2
    ensures r == Ok(true) <==> obj.VTuple? && |obj.items| >= 2 && IsExceptionInstance(obj.items[1])
  {
    if !obj.VTuple? then Ok(false)
    else if |obj.items| < 2 then Err(TupleIndexError)
    else Ok(IsExceptionInstance(obj.items[1]))
  }

  /** A value `set_result` accepts and `get_result` reports as a raised exception. */
  predicate FailureShaped(obj: Value) {
    obj.VTuple? && |obj.items| == 3 && IsExceptionInstance(obj.items[1])
  }

  /** What tblib's `Traceback(tb)` raises when `tb` is not a traceback object. */
  const NotATraceback := Exc("AttributeError", "object has no attribute 'tb_frame'")

  /**
   * What `set_result` stores for `obj`, or the error it raises first: the
   * failure test; for a failure triple, `et, ev, tb = obj` and the tblib
   * wrapping of `tb`; then `dill.dumps`, which cannot pickle a raw traceback.
   * The wrapped traceback is the same opaque `VTraceback`, so an accepted
   * object is stored as it is.
   */
  function Prepare(obj: Value): (r: Result<Value>)
    ensures r.Ok? ==> r.value == obj
    ensures obj.VTuple? && |obj.items| < 2 ==> r == Err(TupleIndexError)
    ensures FailureTest(obj) == Ok(true) && |obj.items| != 3 ==> r == Err(UnpackError(|obj.items|))
    ensures FailureShaped(obj) && obj.items[2] != VTraceback ==> r == Err(NotATraceback)
    ensures FailureShaped(obj) && obj.items[2] == VTraceback ==>
      r == (if HoldsTraceback(obj.items[0]) then Err(TracebackPickleError) else Ok(obj))
    ensures FailureTest(obj) == Ok(false) ==>
      r == (if HoldsTraceback(obj) then Err(TracebackPickleError) else Ok(obj))
  {
    match FailureTest(obj)
    case Err(e) => Err(e)
    case Ok(isFailure) =>
      if !isFailure then
        if HoldsTraceback(obj) then Err(TracebackPickleError) else Ok(obj)
      else if |obj.items| != 3 then Err(UnpackError(|obj.items|))
      else if obj.items[2] != VTraceback then Err(NotATraceback)
      else if HoldsTraceback(obj.items[0]) then Err(TracebackPickleError)
      else Ok(obj)
  }

  /**
   * What `get_result` makes of a stored object: a failure triple is re-raised
   * as its instance, anything else is returned.
   */
  function Decode(obj: Value): (r: Outcome)
    ensures FailureShaped(obj) ==> r == Err(obj.items[1].exc)
    ensures !obj.VTuple? ==> r == Ok(obj)
    ensures obj.VTuple? && |obj.items| >= 2 && !IsExceptionInstance(obj.items[1]) ==> r == Ok(obj)
    ensures obj.VTuple? && |obj.items| < 2 ==> r == Err(TupleIndexError)
  {
    match FailureTest(obj)
    case Err(e) => Err(e)
    case Ok(isFailure) =>
      if !isFailure then Ok(obj)
      else if |obj.items| != 3 then Err(UnpackError(|obj.items|))
      else Err(obj.items[1].exc)
  }

  /** The cache after `set_result(uid, obj, progress)` at time `now`, or the error it raises. */
  function SetResultSpec(cache: map<string, Record>, uid: string, obj: Value, progress: int, now: int)
    : (r: Result<map<string, Record>>)
    ensures r.Ok? <==> Prepare(obj).Ok?
    ensures r.Ok? ==> r.value.Keys == cache.Keys + {Key(uid)}
    ensures r.Ok? ==> r.value[Key(uid)] == Record(uid, obj, now, progress)
    ensures r.Ok? ==> forall k :: k in cache && k != Key(uid) ==> r.value[k] == cache[k]
  {
    match Prepare(obj)
    case Err(e) => Err(e)
    case Ok(stored) => Ok(cache[Key(uid) := Record(uid, stored, now, progress)])
  }

  /** `get_result(uid)`: None when nothing is cached, else the decoded record. */
  function GetResultSpec(cache: map<string, Record>, uid: string): (r: Outcome)
    ensures Key(uid) !in cache ==> r == Ok(VNone)
    ensures r.Err? ==> Key(uid) in cache && cache[Key(uid)].obj.VTuple?
    ensures Key(uid) in cache && FailureShaped(cache[Key(uid)].obj) ==> r == Err(cache[Key(uid)].obj.items[1].exc)
    ensures Key(uid) in cache && !cache[Key(uid)].obj.VTuple? ==> r == Ok(cache[Key(uid)].obj)
  {
    if Key(uid) !in cache then Ok(VNone) else Decode(cache[Key(uid)].obj)
  }

  /** A uid with no cached record reads as None, without raising. */
  lemma GetAbsent(cache: map<string, Record>, uid: string)
    requires Key(uid) !in cache
    ensures GetResultSpec(cache, uid) == Ok(VNone)
  {
  }

  /**
   * Writing a result and reading it back: a plain value comes back as it was,
   * a failure triple is re-raised, and every other uid reads as before.
   */
  lemma SetThenGet(cache: map<string, Record>, uid: string, obj: Value, progress: int, now: int, other: string)
    requires SetResultSpec(cache, uid, obj, progress, now).Ok?
    ensures var after := SetResultSpec(cache, uid, obj, progress, now).value;
      && GetResultSpec(after, uid) == (if FailureShaped(obj) then Err(obj.items[1].exc) else Ok(obj))
      && (other != uid ==> GetResultSpec(after, other) == GetResultSpec(cache, other))
  {
    if other != uid && Key(other) == Key(uid) {
      KeyInjective(other, uid);
    }
  }

  /** A second write for the same uid replaces the first. */
  lemma Overwrite(cache: map<string, Record>, uid: string, v1: Value, v2: Value, p1: int, p2: int, t1: int, t2: int)
    requires SetResultSpec(cache, uid, v1, p1, t1).Ok?
    requires SetResultSpec(cache, uid, v2, p2, t2).Ok?
    ensures var once := SetResultSpec(cache, uid, v1, p1, t1).value;
      SetResultSpec(once, uid, v2, p2, t2) == SetResultSpec(cache, uid, v2, p2, t2)
  {
    var k, second := Key(uid), Record(uid, v2, t2, p2);
    assert cache[k := Record(uid, v1, t1, p1)][k := second] == cache[k := second];
  }

  /**
   * Storing the exc_info of an Exception and reading it back raises the same
   * kind with the same message. For SystemExit, KeyboardInterrupt and the
   * like the triple fails the Exception test, so its raw traceback reaches
   * dill, which cannot pickle it: `set_result` raises and stores nothing.
   */
  lemma {:induction false} ExcInfoRoundTrip(cache: map<string, Record>, uid: string, e: Exc, now: int)
    ensures e.kind in BaseOnlyKinds ==> SetResultSpec(cache, uid, ExcInfo(e), 0, now) == Err(TracebackPickleError)
    ensures e.kind !in BaseOnlyKinds ==>
      && SetResultSpec(cache, uid, ExcInfo(e), 0, now).Ok?
      && GetResultSpec(SetResultSpec(cache, uid, ExcInfo(e), 0, now).value, uid) == Err(e)
  {
    var info := ExcInfo(e);
    if e.kind in BaseOnlyKinds {
      assert HoldsTraceback(info.items[2]);
    } else {
      SetThenGet(cache, uid, info, 0, now, uid);
    }
  }

  /**
   * A returned value that merely looks like a failure triple, such as a
   * `sys.exc_info()` the task returns instead of raising, is reported as a
   * raise of its middle element.
   */
  lemma ValueShapedLikeFailure(cache: map<string, Record>, uid: string, a: Value, e: Exc, now: int)
    requires e.kind !in BaseOnlyKinds && !HoldsTraceback(a)
    ensures SetResultSpec(cache, uid, VTuple([a, VExc(e), VTraceback]), 0, now).Ok?
    ensures GetResultSpec(SetResultSpec(cache, uid, VTuple([a, VExc(e), VTraceback]), 0, now).value, uid) == Err(e)
  {
  }

  /**
   * A returned triple with an Exception in the middle but no traceback last
   * makes the tblib wrapping fail: `set_result` raises AttributeError and
   * stores nothing.
   */
  lemma NonTracebackThirdItem(cache: map<string, Record>, uid: string, a: Value, e: Exc, c: Value, now: int)
    requires e.kind !in BaseOnlyKinds && c != VTraceback
    ensures SetResultSpec(cache, uid, VTuple([a, VExc(e), c]), 0, now) == Err(NotATraceback)
  {
  }

  /** `set_result` of an empty or one-element tuple raises IndexError and stores nothing. */
  lemma ShortTupleFaults(cache: map<string, Record>, uid: string, items: seq<Value>, now: int)
    requires |items| < 2
    ensures SetResultSpec(cache, uid, VTuple(items), 0, now) == Err(TupleIndexError)
  {
  }

  /**
   * A stored None cannot be told apart from a missing record, whatever was
   * stored under the uid before.
   */
  lemma StoredNoneLooksAbsent(cache: map<string, Record>, uid: string, now: int)
    ensures SetResultSpec(cache, uid, VNone, 0, now).Ok?
    ensures GetResultSpec(SetResultSpec(cache, uid, VNone, 0, now).value, uid) == Ok(VNone)
    ensures Key(uid) !in cache ==>
      GetResultSpec(SetResultSpec(cache, uid, VNone, 0, now).value, uid) == GetResultSpec(cache, uid)
  {
  }

  /** The configured result cache, updated in place by `set_result`. */
  class ResultCache {
    var records: map<string, Record>

    constructor ()
      ensures records == map[]
    {
      records := map[];
    }

    /** `set_result(uid, obj, progress)`: on success the record is written, otherwise nothing changes. */
    method SetResult(uid: string, obj: Value, progress: int, now: int) returns (raised: Option<Exc>)
      modifies this
      ensures raised.None? <==> SetResultSpec(old(records), uid, obj, progress, now).Ok?
      ensures raised.None? ==> records == SetResultSpec(old(records), uid, obj, progress, now).value
      ensures raised.Some? ==> records == old(records) && raised.value == SetResultSpec(old(records), uid, obj, progress, now).exc
    {
      var prepared := Prepare(obj);
      if prepared.Err? {
        return Some(prepared.exc);
      }
      records := records[Key(uid) := Record(uid, prepared.value, now, progress)];
      raised := None;
    }

    /** `get_result(uid)`; reading changes nothing. */
    method GetResult(uid: string) returns (r: Outcome)
      ensures r == GetResultSpec(records, uid)
    {
      if Key(uid) !in records {
        return Ok(VNone);
      }
      r := Decode(records[Key(uid)].obj);
    }
  }
}
