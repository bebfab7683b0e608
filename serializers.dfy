/**
 * The two serializers a Future can be built with (futures.py, DillSerializer
 * and JSONSerializer). A blob remembers which format wrote it; reading it with
 * the other format fails, as json.loads fails on a dill pickle and the other
 * way round.
 */
module Serializers {
  import opened Python

  datatype Format = Dill | Json

  /** The text a serializer produces, abstracted to its format and the value it encodes. */
  datatype Blob = Blob(format: Format, payload: Value)

  /** The values `json.dumps` accepts: no exception classes, instances or tracebacks. */
  predicate JsonSafe(v: Value) {
    match v
    case VNone => true
    case VBool(_) => true
    case VInt(_) => true
    case VStr(_) => true
    case VList(items) => forall i :: 0 <= i < |items| ==> JsonSafe(items[i])
    case VTuple(items) => forall i :: 0 <= i < |items| ==> JsonSafe(items[i])
    case VDict(entries) => forall k :: k in entries ==> JsonSafe(entries[k])
    case VClass(_) => false
    case VExc(_) => false
    case VTraceback => false
  }

  /** A value with no tuple anywhere inside it: what `json.loads` can give back. */
  predicate TupleFree(v: Value) {
    match v
    case VList(items) => forall i :: 0 <= i < |items| ==> TupleFree(items[i])
    case VTuple(_) => false
    case VDict(entries) => forall k :: k in entries ==> TupleFree(entries[k])
    case _ => true
  }

  /** What a JSON round trip makes of a value: every tuple becomes a list. */
  function JsonImage(v: Value): (r: Value)
    requires JsonSafe(v)
    ensures JsonSafe(r) && TupleFree(r)
    ensures r.VList? <==> v.VList? || v.VTuple?
    ensures r.VDict? <==> v.VDict?
    ensures v.VTuple? || v.VList? ==> |r.items| == |v.items|
    ensures v.VDict? ==> r.entries.Keys == v.entries.Keys
  {
    match v
    case VList(items) => VList(seq(|items|, i requires 0 <= i < |items| => JsonImage(items[i])))
    case VTuple(items) => VList(seq(|items|, i requires 0 <= i < |items| => JsonImage(items[i])))
    case VDict(entries) => VDict(map k | k in entries :: JsonImage(entries[k]))
    case _ => v
  }

  /** The values a format can write: dill anything but a traceback, JSON the JSON-safe values. */
  predicate Encodable(fmt: Format, v: Value) {
    match fmt
    case Dill => !HoldsTraceback(v)
    case Json => JsonSafe(v)
  }

  /** `serializer.serialize(obj)`: dill and JSON raise TypeError on what they cannot encode. */
  function Serialize(fmt: Format, v: Value): (r: Result<Blob>)
    ensures r.Ok? <==> Encodable(fmt, v)
    ensures fmt == Dill && r.Err? ==> r.exc == TracebackPickleError
    ensures fmt == Json && r.Err? ==> r.exc.kind == "TypeError"
    ensures r.Ok? ==> r.value.format == fmt
  {
    match fmt
    case Dill => if HoldsTraceback(v) then Err(TracebackPickleError) else Ok(Blob(Dill, v))
    case Json =>
      if JsonSafe(v) then Ok(Blob(Json, JsonImage(v)))
      else Err(Exc("TypeError", "Object is not JSON serializable"))
  }

  /** `serializer.deserialize(blob)`; a blob written in the other format does not parse. */
  function Deserialize(fmt: Format, b: Blob): (r: Result<Value>)
    ensures r.Ok? <==> b.format == fmt
  {
    if b.format != fmt then
      Err(match fmt
          case Dill => Exc("UnpicklingError", "invalid load key")
          case Json => Exc("JSONDecodeError", "Expecting value"))
    else Ok(b.payload)
  }

  /** The value a reader gets back after `v` was written in format `fmt`. */
  function Transported(fmt: Format, v: Value): Value
    requires fmt == Dill || JsonSafe(v)
  {
    if fmt == Dill then v else JsonImage(v)
  }

  /** A tuple-free JSON value is its own image: the JSON round trip loses nothing else. */
  lemma {:induction false} JsonImageOfTupleFree(v: Value)
    requires JsonSafe(v) && TupleFree(v)
    ensures JsonImage(v) == v
  {
    match v
    case VList(items) =>
      forall i | 0 <= i < |items| ensures JsonImage(items[i]) == items[i] {
        JsonImageOfTupleFree(items[i]);
      }
      assert JsonImage(v).items == items;
    case VDict(entries) =>
      forall k | k in entries ensures JsonImage(entries[k]) == entries[k] {
        JsonImageOfTupleFree(entries[k]);
      }
      assert JsonImage(v).entries == entries;
    case _ =>
  }

  /**
   * Positional arguments sent as JSON: a tuple of tuple-free items arrives as
   * the list of those very items, as `(3, 6)` arrives as `[3, 6]`.
   */
  lemma JsonTupleBecomesList(items: seq<Value>)
    requires forall i :: 0 <= i < |items| ==> JsonSafe(items[i]) && TupleFree(items[i])
    ensures JsonSafe(VTuple(items))
    ensures JsonImage(VTuple(items)) == VList(items)
  {
    forall i | 0 <= i < |items| ensures JsonImage(items[i]) == items[i] {
      JsonImageOfTupleFree(items[i]);
    }
    assert JsonImage(VTuple(items)).items == items;
  }

  /** Encoding twice is encoding once: a re-sent JSON payload is stable. */
  lemma JsonImageIdempotent(v: Value)
    requires JsonSafe(v)
    ensures JsonImage(JsonImage(v)) == JsonImage(v)
  {
    JsonImageOfTupleFree(JsonImage(v));
  }

  /** Round trip: deserializing with the writer's format returns the transported value. */
  lemma RoundTrip(fmt: Format, v: Value)
    requires Encodable(fmt, v)
    ensures Serialize(fmt, v).Ok?
    ensures Deserialize(fmt, Serialize(fmt, v).value) == Ok(Transported(fmt, v))
    ensures fmt == Dill ==> Transported(fmt, v) == v
  {
  }
}
