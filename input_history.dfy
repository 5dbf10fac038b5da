/** src/components/chat-input/hooks.ts: `useInputHistory`, the input line's history cursor and submit. */
module InputHistory {
  import opened Wrappers
  import opened JsString

  /** What `handleSubmit` hands to its callbacks. */
  datatype SubmitAction = Ignored | SlashCommand(command: string) | Submitted(text: string)

  /** The classification of submitted text in `handleSubmit`. */
  function Classify(text: string): (a: SubmitAction)
    ensures a.Ignored? <==> AllWhitespace(text)
    ensures a.Submitted? ==> a.text == Trim(text) && !StartsWith(a.text, "/")
    ensures a.SlashCommand? ==> StartsWith(Trim(text), "/")
  {
    var trimmed := Trim(text);
    if trimmed == [] then Ignored
    else if StartsWith(trimmed, "/") then SlashCommand(ToLower(Split(trimmed, ' ')[0]))
    else Submitted(trimmed)
  }

  /** A slash command is the lower-cased text of the trimmed input up to its first space:
      it starts with '/', holds no space and no upper-case ASCII letter. */
  lemma SlashCommandIsFirstToken(text: string)
    requires Classify(text).SlashCommand?
    ensures Classify(text).command == ToLower(Before(Trim(text), ' '))
    ensures |Classify(text).command| >= 1 && Classify(text).command[0] == '/'
    ensures ' ' !in Classify(text).command
    ensures forall i :: 0 <= i < |Classify(text).command| ==> !('A' <= Classify(text).command[i] <= 'Z')
  {
    var t := Trim(text);
    SplitHeadTail(t, ' ');
    var b := Before(t, ' ');
    assert t[0] == '/';
    assert |b| >= 1;
    assert b[0] == t[0];
    var c := Classify(text).command;
    forall i | 0 <= i < |c| ensures c[i] != ' ' {
      assert c[i] == LowerChar(b[i]);
      assert b[i] != ' ' by { assert b[i] in b; }
    }
  }

  /** The cursor of `useInputHistory`: `historyIndexRef.current` and the `inputKey` state. */
  class HistoryCursor {
    var historyIndex: int
    var inputKey: nat

    ghost predicate Valid()
      reads this
    {
      historyIndex >= -1
    }

    constructor ()
      ensures Valid() && historyIndex == -1 && inputKey == 0
    {
      historyIndex := -1;
      inputKey := 0;
    }

    /** The `useInput` handler for one key event against a history of `historyLength` entries. */
    method OnKey(upArrow: bool, downArrow: bool, isActive: bool, historyLength: nat)
      requires Valid()
      modifies this`historyIndex
      ensures Valid()
      ensures !isActive ==> historyIndex == old(historyIndex)
      ensures isActive && upArrow && !downArrow && historyLength > 0 ==>
        historyIndex == (if old(historyIndex) + 1 < historyLength - 1 then old(historyIndex) + 1 else historyLength - 1)
      ensures isActive && !upArrow && downArrow ==>
        historyIndex == (if old(historyIndex) <= 0 then -1 else old(historyIndex) - 1)
      ensures isActive && !upArrow && !downArrow ==> historyIndex == old(historyIndex)
      ensures isActive && upArrow && !downArrow && historyLength == 0 ==> historyIndex == old(historyIndex)
      ensures isActive && upArrow && downArrow ==>
        // Both handlers run in turn: the down step starts from the index the up step left.
        var up := if historyLength == 0 then old(historyIndex)
                  else if old(historyIndex) + 1 < historyLength - 1 then old(historyIndex) + 1
                  else historyLength - 1;
        historyIndex == (if up <= 0 then -1 else up - 1)
      ensures isActive && upArrow && historyLength > 0 ==> historyIndex <= historyLength - 1
      ensures old(historyIndex) <= historyLength - 1 ==> historyIndex <= historyLength - 1
      ensures historyLength == 0 ==> historyIndex <= old(historyIndex)
    {
      if !isActive {
        return;
      }
      if upArrow && historyLength > 0 {
        var next := if historyIndex + 1 < historyLength - 1 then historyIndex + 1 else historyLength - 1;
        historyIndex := next;
      }
      if downArrow {
        if historyIndex <= 0 {
          historyIndex := -1;
          return;
        }
        historyIndex := historyIndex - 1;
      }
    }

    /** `handleSubmit(text)`: the callback it makes, then the cursor reset and the input remount. */
    method HandleSubmit(text: string) returns (action: SubmitAction)
      requires Valid()
      modifies this
      ensures Valid()
      ensures action == Classify(text)
      ensures action.Ignored? ==> historyIndex == old(historyIndex) && inputKey == old(inputKey)
      ensures !action.Ignored? ==> historyIndex == -1 && inputKey == old(inputKey) + 1
    {
      action := Classify(text);
      if action.Ignored? {
        return;
      }
      historyIndex := -1;
      inputKey := inputKey + 1;
    }

    /** `defaultValue`: the history entry under the cursor, if any. */
    function DefaultValue(history: seq<string>): (v: Option<string>)
      reads this
      ensures v.Some? <==> 0 <= historyIndex < |history|
      ensures v.Some? ==> v.value == history[historyIndex]
    {
      if 0 <= historyIndex < |history| then Some(history[historyIndex]) else None
    }
  }
}
