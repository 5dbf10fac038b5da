/**
 * JavaScript values as they appear in tool arguments and tool results.
 * Objects (and arrays, which are objects in JavaScript) carry a reference
 * identity `ref`, because `===` compares objects by reference.
 */
module Json {
  import opened Wrappers

  datatype Value =
    | Undefined
    | Null
    | Bool(b: bool)
    | Num(n: int)
    | Str(s: string)
    | Obj(obj: Record)

  /** A plain object: its reference identity and its own entries, listed in the order
      `Object.keys` and `Object.entries` give them (keys that are array indices first, in
      ascending order, then the other keys in the order they were added). */
  datatype Record = Record(ref: nat, entries: seq<(string, Value)>)

  /** The empty object literal `{}` with a given fresh reference. */
  function EmptyRecord(ref: nat): Record {
    Record(ref, [])
  }

  /** `Object.keys(r)`. */
  function Keys(r: Record): (ks: seq<string>)
    ensures |ks| == |r.entries|
    ensures forall i :: 0 <= i < |ks| ==> ks[i] == r.entries[i].0
  {
    KeysOf(r.entries)
  }

  function KeysOf(entries: seq<(string, Value)>): (ks: seq<string>)
    ensures |ks| == |entries|
    ensures forall i :: 0 <= i < |ks| ==> ks[i] == entries[i].0
  {
    if entries == [] then [] else [entries[0].0] + KeysOf(entries[1..])
  }

  /** An object never has two own entries with the same key. */
  predicate WellFormed(r: Record) {
    forall i, j :: 0 <= i < j < |r.entries| ==> r.entries[i].0 != r.entries[j].0
  }

  /** `r[key]`: the value of the first entry with that key, or `undefined`. */
  function Get(r: Record, key: string): (v: Value)
    ensures (forall i :: 0 <= i < |r.entries| ==> r.entries[i].0 != key) ==> v == Undefined
    ensures WellFormed(r) ==> forall i :: 0 <= i < |r.entries| && r.entries[i].0 == key ==> v == r.entries[i].1
  {
    GetFrom(r.entries, key)
  }

  function GetFrom(entries: seq<(string, Value)>, key: string): (v: Value)
    ensures (forall i :: 0 <= i < |entries| ==> entries[i].0 != key) ==> v == Undefined
    ensures (forall i, j :: 0 <= i < j < |entries| ==> entries[i].0 != entries[j].0) ==>
              forall i :: 0 <= i < |entries| && entries[i].0 == key ==> v == entries[i].1
  {
    if entries == [] then Undefined
    else if entries[0].0 == key then entries[0].1
    else GetFrom(entries[1..], key)
  }

  /** JavaScript's `===`: primitives by value, objects by reference (no NaN here: numbers are integers). */
  predicate StrictEq(a: Value, b: Value) {
    match (a, b)
    case (Undefined, Undefined) => true
    case (Null, Null) => true
    case (Bool(x), Bool(y)) => x == y
    case (Num(x), Num(y)) => x == y
    case (Str(x), Str(y)) => x == y
    case (Obj(x), Obj(y)) => x.ref == y.ref
    case _ => false
  }

  /** `typeof v === 'string'`. */
  predicate IsString(v: Value) {
    v.Str?
  }

  /** `v && typeof v === 'object'`: a non-null object. */
  predicate IsObject(v: Value) {
    v.Obj?
  }

  /**
   * `(input && typeof input === 'object' ? input : {})`: the tool-call input as an
   * argument record; `freshRef` is the reference of the new empty object.
   */
  function ArgsOf(input: Value, freshRef: nat): (r: Record)
    ensures IsObject(input) ==> r == input.obj
    ensures !IsObject(input) ==> r.entries == []
  {
    if input.Obj? then input.obj else EmptyRecord(freshRef)
  }

  /** A structured tool error `{ error: message }`. */
  function ErrorValue(ref: nat, message: string): Value {
    Obj(Record(ref, [("error", Str(message))]))
  }

  lemma StrictEqReflexive(v: Value)
    ensures StrictEq(v, v)
  {
  }
}
