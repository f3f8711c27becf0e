/** Best-effort extraction of a JSON object from a language-model reply
    (`safe_json_loads`, written out identically in three source files):
    a strict parse, then a parse of the span that the greedy, DOTALL
    regular expression `\{.*\}` selects, then a wrapper record that keeps
    the unparsed text under `raw_output`. */
module Extraction {
  import opened Values

  /** The first position at or after `from` where `c` occurs. */
  function FindFrom(s: string, c: char, from: nat): (r: Option<nat>)
    requires from <= |s|
    ensures r.Some? ==> from <= r.value < |s| && s[r.value] == c
    ensures r.Some? ==> forall k :: from <= k < r.value ==> s[k] != c
    ensures r.None? ==> forall k :: from <= k < |s| ==> s[k] != c
    decreases |s| - from
  {
    if from == |s| then None
    else if s[from] == c then Some(from)
    else FindFrom(s, c, from + 1)
  }

  /** The last position before `upto` where `c` occurs. */
  function FindLastBefore(s: string, c: char, upto: nat): (r: Option<nat>)
    requires upto <= |s|
    ensures r.Some? ==> r.value < upto && s[r.value] == c
    ensures r.Some? ==> forall k :: r.value < k < upto ==> s[k] != c
    ensures r.None? ==> forall k :: 0 <= k < upto ==> s[k] != c
    decreases upto
  {
    if upto == 0 then None
    else if s[upto - 1] == c then Some(upto - 1)
    else FindLastBefore(s, c, upto - 1)
  }

  /** There is a `{` somewhere before a `}`: the regular expression matches. */
  ghost predicate HasBracePair(s: string) {
    exists a, b :: 0 <= a < b < |s| && s[a] == '{' && s[b] == '}'
  }

  /** `s[a..b + 1]` is the leftmost-longest match of `\{.*\}`: it runs from
      the first `{` of the text to the last `}`. */
  ghost predicate GreedyMatch(s: string, a: nat, b: nat) {
    && a < b < |s| && s[a] == '{' && s[b] == '}'
    && (forall k :: 0 <= k < a ==> s[k] != '{')
    && (forall k :: b < k < |s| ==> s[k] != '}')
  }

  /** The bounds of what `re.search(r"\{.*\}", s, re.DOTALL)` matches: the
      search starts at the first `{`, and the greedy `.*` (which also
      crosses newlines) runs on to the last `}` of the text. */
  function BraceBounds(s: string): (r: Option<(nat, nat)>)
    ensures r.Some? <==> HasBracePair(s)
    ensures r.Some? ==> GreedyMatch(s, r.value.0, r.value.1)
  {
    match FindFrom(s, '{', 0)
    case None => None
    case Some(a) =>
      match FindLastBefore(s, '}', |s|)
      case None => None
      case Some(b) => if a < b then Some((a, b)) else None
  }

  /** `match.group()` when the regular expression matches. */
  function BraceSpan(s: string): (r: Option<string>)
    ensures r.Some? <==> HasBracePair(s)
    ensures r.Some? ==> r.value == s[BraceBounds(s).value.0..BraceBounds(s).value.1 + 1]
  {
    match BraceBounds(s)
    case None => None
    case Some((a, b)) => Some(s[a..b + 1])
  }

  /** The span is the longest match: every `{ ... }` substring of the text
      lies inside it. */
  lemma BraceSpanIsLongest(s: string, a: nat, b: nat)
    requires a < b < |s| && s[a] == '{' && s[b] == '}'
    ensures BraceBounds(s).Some?
    ensures BraceBounds(s).value.0 <= a && b <= BraceBounds(s).value.1
  {
  }

  /** A JSON object surrounded by prose without braces on the wrong side
      is cut out exactly. */
  lemma {:induction false} SpanOfWrappedObject(prose: string, obj: string, tail: string)
    requires |obj| >= 2 && obj[0] == '{' && obj[|obj| - 1] == '}'
    requires forall k :: 0 <= k < |prose| ==> prose[k] != '{'
    requires forall k :: 0 <= k < |tail| ==> tail[k] != '}'
    ensures BraceSpan(prose + obj + tail) == Some(obj)
  {
    var s := prose + obj + tail;
    var a, b := |prose|, |prose| + |obj| - 1;
    assert s[a] == '{' && s[b] == '}';
    assert forall k :: 0 <= k < a ==> s[k] == prose[k];
    assert forall k :: b < k < |s| ==> s[k] == tail[k - b - 1];
    var (i, j) := BraceBounds(s).value;
    assert i == a && j == b;
    assert s[a..b + 1] == obj;
  }

  /** The fallback record: `{"raw_output": text}`. */
  function RawOutput(text: string): (r: Obj)
    ensures r.Keys == {"raw_output"} && r["raw_output"] == JStr(text)
  {
    map["raw_output" := JStr(text)]
  }

  /** `safe_json_loads(text)` over the abstract parser `parse`. */
  function SafeJsonLoads(text: string, parse: string -> Option<Obj>): (r: Obj)
    ensures parse(text).Some? ==> r == parse(text).value
    ensures parse(text).None? && BraceSpan(text).None? ==> r == RawOutput(text)
  {
    match parse(text)
    case Some(o) => o
    case None =>
      match BraceSpan(text)
      case None => RawOutput(text)
      case Some(span) =>
        match parse(span)
        case Some(o) => o
        case None => RawOutput(text)
  }

  /** One of the three outcomes always happens: the strict parse, the
      parse of the brace span, or the fallback record. */
  lemma SafeJsonLoadsCases(text: string, parse: string -> Option<Obj>)
    ensures var r := SafeJsonLoads(text, parse);
      || (parse(text).Some? && r == parse(text).value)
      || (parse(text).None? && BraceSpan(text).Some? && parse(BraceSpan(text).value).Some?
          && r == parse(BraceSpan(text).value).value)
      || (parse(text).None? && (BraceSpan(text).None? || parse(BraceSpan(text).value).None?)
          && r == RawOutput(text))
  {
  }

  /** A result without a `raw_output` key comes from a successful parse of
      the text or of its brace span. */
  lemma NoRawOutputMeansParsed(text: string, parse: string -> Option<Obj>)
    requires "raw_output" !in SafeJsonLoads(text, parse)
    ensures parse(text).Some? || (BraceSpan(text).Some? && parse(BraceSpan(text).value).Some?)
  {
  }

  /** The example of a reply with prose around a JSON object. */
  lemma SpanOfExampleReply()
    ensures BraceSpan("Sure, here you go: {\"a\": 1, \"b\": 2} thanks!") == Some("{\"a\": 1, \"b\": 2}")
  {
    var prose, obj, tail := "Sure, here you go: ", "{\"a\": 1, \"b\": 2}", " thanks!";
    assert prose + obj + tail == "Sure, here you go: {\"a\": 1, \"b\": 2} thanks!";
    SpanOfWrappedObject(prose, obj, tail);
  }

  /** Free text without braces falls back to the wrapper record. */
  lemma NoBracesFallsBack(text: string, parse: string -> Option<Obj>)
    requires parse(text).None?
    requires forall k :: 0 <= k < |text| ==> text[k] != '{'
    ensures SafeJsonLoads(text, parse) == RawOutput(text)
  {
    assert BraceSpan(text).None?;
  }
}
