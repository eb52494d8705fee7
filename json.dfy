/**
 * Decoded JSON values, the text codec as an external collaborator, and the
 * conversion `_immutable` of qiwis.py (lists become tuples, dicts become
 * read-only mappings, scalars stay as they are).
 */
module Json {
  import opened Wrappers

  /** A value produced by `json.loads`: the `JsonType` union of qiwis.py. */
  datatype Json =
    | JNull
    | JBool(b: bool)
    | JNum(n: real)
    | JStr(s: string)
    | JArr(items: seq<Json>)
    | JObj(fields: map<string, Json>)

  /**
   * `json.dumps` and `json.loads` are library code: the model receives them as
   * values. `loads` answers None for text that does not decode.
   */
  datatype Codec = Codec(dumps: Json -> string, loads: string -> Option<Json>)

  /** The library's round-trip law: decoding what was encoded gives the value back. */
  ghost predicate RoundTrips(codec: Codec)
  {
    forall j :: codec.loads(codec.dumps(j)) == Some(j)
  }

  /** Python's truth value of a decoded value, as `if value:` tests it: empty and zero values are false. */
  predicate Truthy(j: Json)
  {
    match j
    case JNull => false
    case JBool(b) => b
    case JNum(n) => n != 0.0
    case JStr(s) => s != ""
    case JArr(items) => items != []
    case JObj(fields) => fields != map[]
  }

  /** The `ImmutableJsonType` union: tuples and read-only mappings in place of lists and dicts. */
  datatype Frozen =
    | FNull
    | FBool(b: bool)
    | FNum(n: real)
    | FStr(s: string)
    | FTuple(items: seq<Frozen>)
    | FMapping(fields: map<string, Frozen>)

  /** `_immutable(source)`: structural recursion over a decoded value. */
  function Immutable(source: Json): (f: Frozen)
    ensures source.JArr? <==> f.FTuple?
    ensures source.JObj? <==> f.FMapping?
    ensures source.JArr? ==> |f.items| == |source.items|
    ensures source.JObj? ==> f.fields.Keys == source.fields.Keys
    ensures source.JNull? ==> f == FNull
    ensures source.JBool? ==> f == FBool(source.b)
    ensures source.JNum? ==> f == FNum(source.n)
    ensures source.JStr? ==> f == FStr(source.s)
  {
    match source
    case JNull => FNull
    case JBool(b) => FBool(b)
    case JNum(n) => FNum(n)
    case JStr(s) => FStr(s)
    case JArr(items) => FTuple(seq(|items|, i requires 0 <= i < |items| => Immutable(items[i])))
    case JObj(fields) => FMapping(map k | k in fields :: Immutable(fields[k]))
  }

  /** The inverse direction: a tuple is a list again, a mapping a dict. */
  function Thaw(f: Frozen): (j: Json)
  {
    match f
    case FNull => JNull
    case FBool(b) => JBool(b)
    case FNum(n) => JNum(n)
    case FStr(s) => JStr(s)
    case FTuple(items) => JArr(seq(|items|, i requires 0 <= i < |items| => Thaw(items[i])))
    case FMapping(fields) => JObj(map k | k in fields :: Thaw(fields[k]))
  }

  /** `_immutable` loses nothing: every decoded value is recovered from its frozen form. */
  lemma {:induction false} ThawImmutable(source: Json)
    ensures Thaw(Immutable(source)) == source
  {
    match source
    case JArr(items) =>
      forall i | 0 <= i < |items| ensures Thaw(Immutable(items[i])) == items[i] {
        ThawImmutable(items[i]);
      }
    case JObj(fields) =>
      forall k | k in fields ensures Thaw(Immutable(fields[k])) == fields[k] {
        ThawImmutable(fields[k]);
      }
    case _ =>
  }

  /** Every frozen value is the image of one decoded value, so `_immutable` is onto. */
  lemma {:induction false} ImmutableThaw(f: Frozen)
    ensures Immutable(Thaw(f)) == f
  {
    match f
    case FTuple(items) =>
      forall i | 0 <= i < |items| ensures Immutable(Thaw(items[i])) == items[i] {
        ImmutableThaw(items[i]);
      }
    case FMapping(fields) =>
      forall k | k in fields ensures Immutable(Thaw(fields[k])) == fields[k] {
        ImmutableThaw(fields[k]);
      }
    case _ =>
  }

  /** Two decoded values with the same frozen form are the same value. */
  lemma ImmutableInjective(a: Json, b: Json)
    requires Immutable(a) == Immutable(b)
    ensures a == b
  {
    ThawImmutable(a);
    ThawImmutable(b);
  }
}
