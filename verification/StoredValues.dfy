/**
exactStoredValueEqual of lib/security/session-vault-format.ts on the values
IndexedDB can give back, and what it cannot tell apart.
*/
module StoredValues {

  /** `dense` is false for an array with holes or extra keys; a primitive stands for itself. */
  datatype Value =
    | Primitive(p: int)
    | Buffer(bytes: seq<int>)
    | Array(dense: bool, items: seq<Value>)
    | Record(fields: map<string, Value>)

  /** The source's isRecord: an ArrayBuffer is an object and no array, so it passes too. */
  predicate IsRecord(v: Value) { v.Record? || v.Buffer? }

  /** Object.keys finds none on an ArrayBuffer. */
  function Fields(v: Value): map<string, Value> { if v.Record? then v.fields else map[] }

  /** Two separate values; the same object would be equal at once. */
  predicate ExactEqual(a: Value, b: Value)
    decreases a
  {
    if a.Primitive? && b.Primitive? && a.p == b.p then true
    else if a.Buffer? && b.Buffer? then |a.bytes| == |b.bytes| && forall i :: 0 <= i < |a.bytes| ==> a.bytes[i] == b.bytes[i]
    else if a.Array? && b.Array? then
      a.dense && b.dense && |a.items| == |b.items| && forall i :: 0 <= i < |a.items| ==> ExactEqual(a.items[i], b.items[i])
    else if IsRecord(a) && IsRecord(b) then
      Fields(a).Keys == Fields(b).Keys && forall k :: k in Fields(a) ==> ExactEqual(Fields(a)[k], Fields(b)[k])
    else false
  }

  /** Every array in the value is dense. */
  predicate Dense(v: Value)
    decreases v
  {
    match v
    case Primitive(_) => true
    case Buffer(_) => true
    case Array(dense, items) => dense && forall i :: 0 <= i < |items| ==> Dense(items[i])
    case Record(fields) => forall k :: k in fields ==> Dense(fields[k])
  }

  /** Somewhere at the same place one value holds a buffer and the other an empty record. */
  predicate Confused(a: Value, b: Value)
    decreases a
  {
    if a.Buffer? && b.Record? then b.fields.Keys == {}
    else if a.Record? && b.Buffer? then a.fields.Keys == {}
    else if a.Array? && b.Array? && |a.items| == |b.items| then exists i :: 0 <= i < |a.items| && Confused(a.items[i], b.items[i])
    else if a.Record? && b.Record? && a.fields.Keys == b.fields.Keys then
      exists k :: k in a.fields && Confused(a.fields[k], b.fields[k])
    else false
  }

  /**
  On values without sparse arrays the comparison is equality, except that a buffer passes for an empty record: two
  values that compare equal are equal exactly when this happens nowhere in them.
  */
  lemma {:induction false} ExactEqualIsEquality(a: Value, b: Value)
    requires Dense(a) && Dense(b)
    ensures a == b <==> ExactEqual(a, b) && !Confused(a, b)
    decreases a
  {
    if a.Array? && b.Array? && |a.items| == |b.items| {
      forall i | 0 <= i < |a.items| ensures a.items[i] == b.items[i] <==> ExactEqual(a.items[i], b.items[i]) && !Confused(a.items[i], b.items[i]) {
        ExactEqualIsEquality(a.items[i], b.items[i]);
      }
      assert a == b <==> forall i :: 0 <= i < |a.items| ==> a.items[i] == b.items[i];
    } else if a.Record? && b.Record? && a.fields.Keys == b.fields.Keys {
      forall k | k in a.fields ensures a.fields[k] == b.fields[k] <==> ExactEqual(a.fields[k], b.fields[k]) && !Confused(a.fields[k], b.fields[k]) {
        ExactEqualIsEquality(a.fields[k], b.fields[k]);
      }
      assert a == b <==> forall k :: k in a.fields ==> a.fields[k] == b.fields[k];
    }
  }

  /** The confusion is real. */
  lemma ABufferPassesForAnEmptyRecord(bytes: seq<int>)
    ensures ExactEqual(Buffer(bytes), Record(map[])) && ExactEqual(Record(map[]), Buffer(bytes)) && Buffer(bytes) != Record(map[])
    ensures bytes != [] ==> !ExactEqual(Buffer(bytes), Buffer([]))
  {
    assert Fields(Buffer(bytes)).Keys == Fields(Record(map[])).Keys;
  }

  /** A separate copy of a value with a sparse array in it is never equal to it. */
  lemma {:induction false} SparseNeverEqualsItsCopy(v: Value)
    ensures ExactEqual(v, v) <==> Dense(v)
    decreases v
  {
    match v
    case Primitive(_) =>
    case Buffer(_) =>
    case Array(_, items) =>
      forall i | 0 <= i < |items| ensures ExactEqual(items[i], items[i]) <==> Dense(items[i]) { SparseNeverEqualsItsCopy(items[i]); }
    case Record(fields) =>
      forall k | k in fields ensures ExactEqual(fields[k], fields[k]) <==> Dense(fields[k]) { SparseNeverEqualsItsCopy(fields[k]); }
  }
}
