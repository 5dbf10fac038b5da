/** src/tools/utils.ts: comparison of tool-call argument records. */
module ToolUtils {
  import opened Wrappers
  import opened Json

  /** `previousArgs === nextArgs` on two optional objects: both absent, or the same reference. */
  predicate SameReference(prev: Option<Record>, next: Option<Record>) {
    (prev.None? && next.None?) || (prev.Some? && next.Some? && prev.value.ref == next.value.ref)
  }

  /** `previousKeys.every((key) => previousArgs[key] === nextArgs[key])`. */
  predicate EveryKeyMatches(prev: Record, next: Record) {
    forall k :: k in Keys(prev) ==> StrictEq(Get(prev, k), Get(next, k))
  }

  /** `hasSameArgs(previousArgs, nextArgs)`. */
  predicate HasSameArgs(prev: Option<Record>, next: Option<Record>) {
    if SameReference(prev, next) then true
    else if prev.None? || next.None? then prev.None? && next.None?
    else if |Keys(prev.value)| != |Keys(next.value)| then false
    else EveryKeyMatches(prev.value, next.value)
  }

  /** The early-return branches: the same reference (so the comparison is reflexive), absent
      args, one side absent, different key counts. */
  lemma HasSameArgsGuards(prev: Option<Record>, next: Option<Record>)
    ensures HasSameArgs(prev, prev)
    ensures prev.None? && next.None? ==> HasSameArgs(prev, next)
    ensures prev.None? != next.None? ==> !HasSameArgs(prev, next)
    ensures (prev.Some? && next.Some? && prev.value.ref != next.value.ref
             && |prev.value.entries| != |next.value.entries|) ==> !HasSameArgs(prev, next)
  {
  }

  /** The set of keys of an object. */
  function KeySet(r: Record): set<string> {
    set i | 0 <= i < |r.entries| :: r.entries[i].0
  }

  /** A well-formed object has as many distinct keys as entries. */
  lemma {:induction false} KeySetSize(r: Record)
    requires WellFormed(r)
    ensures |KeySet(r)| == |r.entries|
    decreases |r.entries|
  {
    if r.entries != [] {
      var n := |r.entries|;
      var init := Record(r.ref, r.entries[..n - 1]);
      KeySetSize(init);
      assert KeySet(r) == KeySet(init) + {r.entries[n - 1].0} by {
        forall k | k in KeySet(r) ensures k in KeySet(init) + {r.entries[n - 1].0} {
          var i :| 0 <= i < n && r.entries[i].0 == k;
          if i < n - 1 { assert init.entries[i].0 == k; }
        }
      }
      assert r.entries[n - 1].0 !in KeySet(init);
    }
  }

  lemma {:induction false} SubsetSize<T>(a: set<T>, b: set<T>)
    requires a <= b
    ensures |a| <= |b|
    decreases |b|
  {
    if a != {} {
      var x :| x in a;
      SubsetSize(a - {x}, b - {x});
    }
  }

  lemma SubsetOfEqualSize<T>(a: set<T>, b: set<T>)
    requires a <= b && |a| == |b|
    ensures a == b
  {
    forall y | y in b ensures y in a {
      if y !in a {
        SubsetSize(a, b - {y});
      }
    }
  }

  /**
   * For well-formed objects that are different references and hold no `undefined`
   * values, `hasSameArgs` holds exactly when both have the same keys and every key
   * maps to `===`-equal values.
   */
  lemma HasSameArgsCharacterization(prev: Record, next: Record)
    requires WellFormed(prev) && WellFormed(next) && prev.ref != next.ref
    requires forall i :: 0 <= i < |prev.entries| ==> prev.entries[i].1 != Undefined
    requires forall i :: 0 <= i < |next.entries| ==> next.entries[i].1 != Undefined
    ensures HasSameArgs(Some(prev), Some(next)) <==>
              KeySet(prev) == KeySet(next) && forall k :: k in KeySet(prev) ==> StrictEq(Get(prev, k), Get(next, k))
  {
    KeysAreKeySet(prev);
    if HasSameArgs(Some(prev), Some(next)) {
      SameArgsSameKeys(prev, next);
    } else if KeySet(prev) == KeySet(next) {
      KeySetSize(prev);
      KeySetSize(next);
    }
  }

  /** The keys listed by `Object.keys` are the object's key set. */
  lemma KeysAreKeySet(r: Record)
    ensures forall k :: k in Keys(r) <==> k in KeySet(r)
  {
    forall k ensures k in Keys(r) <==> k in KeySet(r) {
      if k in Keys(r) {
        var i :| 0 <= i < |Keys(r)| && Keys(r)[i] == k;
      }
    }
  }

  /** Equal key counts and every key of `prev` defined in `next`: the key sets coincide. */
  lemma SameArgsSameKeys(prev: Record, next: Record)
    requires WellFormed(prev) && WellFormed(next) && prev.ref != next.ref
    requires forall i :: 0 <= i < |prev.entries| ==> prev.entries[i].1 != Undefined
    requires HasSameArgs(Some(prev), Some(next))
    ensures KeySet(prev) == KeySet(next)
  {
    KeySetSize(prev);
    KeySetSize(next);
    MatchedKeysDefined(prev, next);
    SubsetOfEqualSize(KeySet(prev), KeySet(next));
  }

  /** Every key of `prev`, whose values are all defined, is a key of `next` when the keys match. */
  lemma MatchedKeysDefined(prev: Record, next: Record)
    requires WellFormed(prev)
    requires forall i :: 0 <= i < |prev.entries| ==> prev.entries[i].1 != Undefined
    requires EveryKeyMatches(prev, next)
    ensures KeySet(prev) <= KeySet(next)
  {
    KeysAreKeySet(prev);
    forall k | k in KeySet(prev) ensures k in KeySet(next) {
      var i :| 0 <= i < |prev.entries| && prev.entries[i].0 == k;
      assert Get(prev, k) != Undefined;
      MatchedKeyIsDefined(prev, next, k);
      var j :| 0 <= j < |next.entries| && next.entries[j].0 == k;
    }
  }

  /** Only `undefined` is `===` to `undefined`, so a matched key defined in `prev` is defined in `next`. */
  lemma MatchedKeyIsDefined(prev: Record, next: Record, k: string)
    requires EveryKeyMatches(prev, next) && k in Keys(prev) && Get(prev, k) != Undefined
    ensures Get(next, k) != Undefined
  {
    assert StrictEq(Get(prev, k), Get(next, k));
  }

  /** Reading a key that the object lacks gives `undefined`, so two objects whose
      only values are `undefined` compare equal whatever their keys. */
  lemma MissingKeysReadUndefined()
    ensures HasSameArgs(Some(Record(1, [("a", Undefined)])), Some(Record(2, [("b", Undefined)])))
  {
    assert Keys(Record(1, [("a", Undefined)])) == ["a"];
  }
}
