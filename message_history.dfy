/** src/components/message-history/index.tsx: the memo comparison of the message list. */
module MessageHistory {
  import opened Wrappers
  import opened ChatTypes
  import opened ToolUtils

  /** The per-row comparison inside `every`. */
  predicate SameRow(a: DisplayMessage, b: DisplayMessage) {
    a.id == b.id && a.role == b.role && a.content == b.content && a.toolName == b.toolName
    && HasSameArgs(a.toolArgs, b.toolArgs)
  }

  /** `prev.every((m, i) => SameRow(m, next[i]))` for lists of equal length. */
  predicate RowsMatch(prev: seq<DisplayMessage>, next: seq<DisplayMessage>)
    requires |prev| == |next|
  {
    forall i :: 0 <= i < |prev| ==> SameRow(prev[i], next[i])
  }

  /**
   * `areMessagesEqual(prev, next)`. The reference check `prev === next` is modelled
   * by value equality of the lists; RowsMatchReflexive shows the element check
   * gives the same answer there.
   */
  predicate AreMessagesEqual(prev: seq<DisplayMessage>, next: seq<DisplayMessage>) {
    if prev == next then true
    else if |prev| != |next| then false
    else RowsMatch(prev, next)
  }

  /** The element-by-element check already accepts identical lists, so the reference
      shortcut never changes the answer. */
  lemma RowsMatchReflexive(m: seq<DisplayMessage>)
    ensures RowsMatch(m, m)
  {
    forall i | 0 <= i < |m| ensures SameRow(m[i], m[i]) {
      assert SameReference(m[i].toolArgs, m[i].toolArgs);
    }
  }

  /** Lists of different lengths are unequal; lists of equal length are equal exactly when
      every position matches on id, role, content, tool name and arguments. */
  lemma AreMessagesEqualMeaning(prev: seq<DisplayMessage>, next: seq<DisplayMessage>)
    ensures |prev| != |next| ==> !AreMessagesEqual(prev, next)
    ensures |prev| == |next| ==>
      (AreMessagesEqual(prev, next) <==> forall i :: 0 <= i < |prev| ==> SameRow(prev[i], next[i]))
  {
    if prev == next {
      RowsMatchReflexive(prev);
    }
  }

  /** The comparison is reflexive. */
  lemma AreMessagesEqualReflexive(m: seq<DisplayMessage>)
    ensures AreMessagesEqual(m, m)
  {
  }
}
