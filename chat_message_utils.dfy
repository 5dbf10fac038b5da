/** src/components/chat-message/utils.ts: text helpers of the message renderer. */
module ChatMessageUtils {
  import opened Wrappers
  import opened Json
  import opened JsString

  /** `truncate(text, maxLength)`. */
  function Truncate(text: string, maxLength: int): (r: string)
    ensures |text| <= maxLength ==> r == text
    ensures |text| > maxLength && maxLength >= 3 ==> r == text[..maxLength - 3] + "..."
    ensures maxLength >= 3 ==> |r| <= maxLength
    ensures |text| > maxLength >= 3 ==> |r| == maxLength
  {
    if |text| <= maxLength then text
    else Slice(text, 0, maxLength - 3) + "..."
  }

  /** Below 3, `slice` gets a negative end and counts from the end of the text,
      so the result is longer than `maxLength`. */
  lemma TruncateBelowThree()
    ensures Truncate("abcdef", 1) == "abcd..."
  {
    assert Slice("abcdef", 0, -2) == "abcd";
  }

  /** The text of one value: strings truncated to 60 characters, others serialised.
      `JSON.stringify(undefined)` yields `undefined`, which the template literal prints. */
  function ValueText(v: Value, serialize: Value -> string): string {
    if v.Str? then Truncate(v.s, 60)
    else if v.Undefined? then "undefined"
    else serialize(v)
  }

  function Pair(e: (string, Value), serialize: Value -> string): string {
    e.0 + "=" + ValueText(e.1, serialize)
  }

  function Pairs(entries: seq<(string, Value)>, serialize: Value -> string): (ps: seq<string>)
    ensures |ps| == |entries|
    ensures forall i :: 0 <= i < |entries| ==> ps[i] == Pair(entries[i], serialize)
  {
    if entries == [] then [] else [Pair(entries[0], serialize)] + Pairs(entries[1..], serialize)
  }

  /** `formatToolArgs(args)`. */
  function FormatToolArgs(args: Option<Record>, serialize: Value -> string): (r: string)
    ensures args.None? || args.value.entries == [] ==> r == ""
  {
    if args.None? then ""
    else if args.value.entries == [] then ""
    else Join(Pairs(args.value.entries, serialize), " ")
  }

  /** Joining one more part adds exactly one separator before it. */
  lemma {:induction false} JoinAppend(parts: seq<string>, p: string, sep: string)
    requires parts != []
    ensures Join(parts + [p], sep) == Join(parts, sep) + sep + p
  {
    if |parts| == 1 {
      assert parts + [p] == [parts[0], p];
    } else {
      assert (parts + [p])[1..] == parts[1..] + [p];
      JoinAppend(parts[1..], p, sep);
    }
  }

  /** Pairs come in entry order separated by single spaces: adding an entry at the end
      appends one space and its `key=value` pair. */
  lemma FormatToolArgsAppend(ref: nat, entries: seq<(string, Value)>, e: (string, Value), serialize: Value -> string)
    requires entries != []
    ensures FormatToolArgs(Some(Record(ref, entries + [e])), serialize)
            == FormatToolArgs(Some(Record(ref, entries)), serialize) + " " + e.0 + "=" + ValueText(e.1, serialize)
  {
    assert Pairs(entries + [e], serialize) == Pairs(entries, serialize) + [Pair(e, serialize)];
    JoinAppend(Pairs(entries, serialize), Pair(e, serialize), " ");
  }

  /** A single entry formats as its own pair; string values show at most 60 characters. */
  lemma FormatToolArgsSingle(ref: nat, key: string, value: string, serialize: Value -> string)
    ensures var r := FormatToolArgs(Some(Record(ref, [(key, Str(value))])), serialize);
      r == key + "=" + Truncate(value, 60) && |r| <= |key| + 1 + 60
  {
  }
}
