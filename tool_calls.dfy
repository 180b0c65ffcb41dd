/**
  Tool-call extraction from one LLM output (`_extract_tool_calls`).

  The text is scanned for the two fixed tag forms
      <Action><ToolName>NAME</ToolName><Description>DESC</Description></Action>
      <ActionInput><ToolName>NAME</ToolName><Arguments>ARGS</Arguments></ActionInput>
  and every Action match yields one record: its stripped name and
  description, and the arguments of the first ActionInput match (in text
  order) whose stripped name is the same, decoded as JSON; an ActionInput
  whose payload is not JSON gives `{"raw": payload}` with the payload
  stripped; no matching ActionInput gives `{}`.

  The JSON decoder is a parameter: `parse(t)` is `Some(v)` when `t` is a
  JSON document denoting `v`, and `None` when decoding raises.
 */
module ToolCalls {
  import opened Wrappers
  import opened Strings
  import opened TagScan

  /** A decoded JSON value. A number is held as text; which text stands
      for a given number (`1.5` or `1.50`) is the decoder's choice. */
  datatype Json =
    | Null
    | Bool(b: bool)
    | Number(literal: string)
    | Str(s: string)
    | Array(elements: seq<Json>)
    | Object(members: seq<(string, Json)>)

  /** One extracted tool call. */
  datatype ToolCall = ToolCall(toolName: string, description: string, arguments: Json)

  const ActionPattern := Pattern("<Action><ToolName>", "</ToolName><Description>", "</Description></Action>")
  const ActionInputPattern := Pattern("<ActionInput><ToolName>", "</ToolName><Arguments>", "</Arguments></ActionInput>")

  /** The arguments a call carries when no ActionInput names its tool. */
  const NoArguments := Object([])

  /** The fallback for a payload that is not JSON. */
  function RawArguments(payload: string): (r: Json)
  {
    Object([("raw", Str(payload))])
  }

  /** `json.loads(payload.strip())`, falling back to the stripped payload. */
  function Decode(parse: string -> Option<Json>, payload: string): (r: Json)
    ensures Some(r) == parse(Strip(payload)) || (parse(Strip(payload)).None? && r == RawArguments(Strip(payload)))
  {
    match parse(Strip(payload))
    case Some(v) => v
    case None => RawArguments(Strip(payload))
  }

  /** Decoding never fails: it gives what the parser gives, or the raw
      fallback, which holds the payload without surrounding whitespace. */
  lemma DecodeTotal(parse: string -> Option<Json>, payload: string)
    ensures parse(Strip(payload)).Some? ==> Decode(parse, payload) == parse(Strip(payload)).value
    ensures parse(Strip(payload)).None? ==>
              Decode(parse, payload) == RawArguments(Strip(payload)) && Trimmed(Strip(payload))
    ensures parse(Strip(payload)).None? && Trimmed(payload) ==> Decode(parse, payload) == RawArguments(payload)
  {
    if Trimmed(payload) {
      StripOfTrimmed(payload);
    }
  }

  /** The index of the first ActionInput match at or after `from` whose
      stripped name is `name`. */
  function FirstNamed(name: string, inputs: seq<Match>, from: nat): (r: Option<nat>)
    ensures r.Some? ==> from <= r.value < |inputs| && Strip(inputs[r.value].group1) == name
    ensures r.Some? ==> forall j :: from <= j < r.value ==> Strip(inputs[j].group1) != name
    ensures r.None? ==> forall j :: from <= j < |inputs| ==> Strip(inputs[j].group1) != name
    decreases |inputs| - from
  {
    if from >= |inputs| then None
    else if Strip(inputs[from].group1) == name then Some(from)
    else FirstNamed(name, inputs, from + 1)
  }

  /** The arguments paired with an Action named `name`. */
  function ArgumentsFor(parse: string -> Option<Json>, name: string, inputs: seq<Match>): (r: Json)
    ensures (forall j :: 0 <= j < |inputs| ==> Strip(inputs[j].group1) != name) ==> r == NoArguments
  {
    match FirstNamed(name, inputs, 0)
    case None => NoArguments
    case Some(j) => Decode(parse, inputs[j].group2)
  }

  /** The record made from one Action match. */
  function CallFor(parse: string -> Option<Json>, action: Match, inputs: seq<Match>): (r: ToolCall)
    ensures Trimmed(r.toolName) && Trimmed(r.description)
    ensures r.arguments == ArgumentsFor(parse, r.toolName, inputs)
  {
    var name := Strip(action.group1);
    ToolCall(name, Strip(action.group2), ArgumentsFor(parse, name, inputs))
  }

  /** The Action and ActionInput matches of a text. */
  ghost function Actions(text: string): (r: seq<Match>)
    ensures forall i :: 0 <= i < |r| ==> MatchAt(text, ActionPattern, r[i].start) == Some(r[i])
    ensures forall i :: 0 < i < |r| ==> r[i - 1].end <= r[i].start
  {
    FindAllMatchesInOrder(text, ActionPattern, 0);
    FindAll(text, ActionPattern, 0)
  }

  ghost function ActionInputs(text: string): (r: seq<Match>)
    ensures forall i :: 0 <= i < |r| ==> MatchAt(text, ActionInputPattern, r[i].start) == Some(r[i])
    ensures forall i :: 0 < i < |r| ==> r[i - 1].end <= r[i].start
  {
    FindAllMatchesInOrder(text, ActionInputPattern, 0);
    FindAll(text, ActionInputPattern, 0)
  }

  /** What `_extract_tool_calls(text)` returns: one record per Action match. */
  ghost function ToolCallsIn(parse: string -> Option<Json>, text: string): (r: seq<ToolCall>)
    ensures |r| == |Actions(text)|
  {
    var actions := Actions(text);
    seq(|actions|, i requires 0 <= i < |actions| => CallFor(parse, actions[i], ActionInputs(text)))
  }

  /** The extractor: both scans, then the pairing loop. */
  method ExtractToolCalls(parse: string -> Option<Json>, text: string) returns (calls: seq<ToolCall>)
    ensures calls == ToolCallsIn(parse, text)
  {
    var actions := FindAllMatches(text, ActionPattern);
    var inputs := FindAllMatches(text, ActionInputPattern);
    calls := BuildCalls(parse, actions, inputs);
  }

  /** The outer loop over the Action matches, appending one record for each. */
  method BuildCalls(parse: string -> Option<Json>, actions: seq<Match>, inputs: seq<Match>) returns (calls: seq<ToolCall>)
    ensures calls == seq(|actions|, i requires 0 <= i < |actions| => CallFor(parse, actions[i], inputs))
  {
    calls := [];
    for i := 0 to |actions|
      invariant |calls| == i
      invariant forall k :: 0 <= k < i ==> calls[k] == CallFor(parse, actions[k], inputs)
    {
      var name := Strip(actions[i].group1);
      var arguments := PairArguments(parse, name, inputs);
      var call := ToolCall(name, Strip(actions[i].group2), arguments);
      assert call == CallFor(parse, actions[i], inputs);
      calls := calls + [call];
    }
  }

  /** The inner search: the arguments start as `{}` and are overwritten by
      the first ActionInput match named `name`, where the search stops. */
  method PairArguments(parse: string -> Option<Json>, name: string, inputs: seq<Match>) returns (arguments: Json)
    ensures arguments == ArgumentsFor(parse, name, inputs)
  {
    arguments := NoArguments;
    var j := 0;
    while j < |inputs|
      invariant j <= |inputs|
      invariant forall l :: 0 <= l < j ==> Strip(inputs[l].group1) != name
      invariant arguments == NoArguments
    {
      if Strip(inputs[j].group1) == name {
        arguments := Decode(parse, inputs[j].group2);
        break;
      }
      j := j + 1;
    }
  }

  // ---------------------------------------------------------------------
  // Properties of the extraction
  // ---------------------------------------------------------------------

  /** One record per Action match, in text order: record `i` carries the
      stripped groups of the `i`-th match, which is a genuine match of the
      Action pattern and starts after the end of the previous one. */
  lemma CallsFollowActions(parse: string -> Option<Json>, text: string)
    ensures |ToolCallsIn(parse, text)| == |Actions(text)|
    ensures forall i :: 0 <= i < |Actions(text)| ==>
              ToolCallsIn(parse, text)[i].toolName == Strip(Actions(text)[i].group1) &&
              ToolCallsIn(parse, text)[i].description == Strip(Actions(text)[i].group2) &&
              MatchAt(text, ActionPattern, Actions(text)[i].start) == Some(Actions(text)[i])
    ensures forall i :: 0 < i < |Actions(text)| ==> Actions(text)[i - 1].end <= Actions(text)[i].start
  {
    FindAllMatchesInOrder(text, ActionPattern, 0);
  }

  /** Names and descriptions are stored without surrounding whitespace. */
  lemma CallsAreTrimmed(parse: string -> Option<Json>, text: string)
    ensures forall c :: c in ToolCallsIn(parse, text) ==> Trimmed(c.toolName) && Trimmed(c.description)
  {
  }

  /** The arguments of record `i`: those of the first ActionInput match with
      the same stripped name. */
  lemma ArgumentsOfCall(parse: string -> Option<Json>, text: string, i: nat, k: nat)
    requires i < |Actions(text)|
    requires k < |ActionInputs(text)|
    requires Strip(ActionInputs(text)[k].group1) == ToolCallsIn(parse, text)[i].toolName
    requires forall l :: 0 <= l < k ==> Strip(ActionInputs(text)[l].group1) != ToolCallsIn(parse, text)[i].toolName
    ensures ToolCallsIn(parse, text)[i].arguments == Decode(parse, ActionInputs(text)[k].group2)
  {
    var calls := ToolCallsIn(parse, text);
    assert calls[i] == CallFor(parse, Actions(text)[i], ActionInputs(text));
    FirstNamedArguments(parse, calls[i].toolName, ActionInputs(text), k);
  }

  /** When `k` is the first index carrying `name`, the paired arguments are
      the decoded payload at `k`. */
  lemma FirstNamedArguments(parse: string -> Option<Json>, name: string, inputs: seq<Match>, k: nat)
    requires k < |inputs| && Strip(inputs[k].group1) == name
    requires forall l :: 0 <= l < k ==> Strip(inputs[l].group1) != name
    ensures ArgumentsFor(parse, name, inputs) == Decode(parse, inputs[k].group2)
  {
    // The search cannot miss `k`, and no index before `k` carries the name.
    var r := FirstNamed(name, inputs, 0);
    assert r.Some? && r.value <= k;
  }

  /** With no ActionInput match of that stripped name, record `i` gets `{}`. */
  lemma ArgumentsDefault(parse: string -> Option<Json>, text: string, i: nat)
    requires i < |Actions(text)|
    requires forall l :: 0 <= l < |ActionInputs(text)| ==> Strip(ActionInputs(text)[l].group1) != ToolCallsIn(parse, text)[i].toolName
    ensures ToolCallsIn(parse, text)[i].arguments == NoArguments
  {
  }

  /** ActionInput matches are not used up: two Actions with the same
      stripped name receive the same arguments. */
  lemma SameNameSameArguments(parse: string -> Option<Json>, text: string, i: nat, j: nat)
    requires i < |Actions(text)| && j < |Actions(text)|
    requires ToolCallsIn(parse, text)[i].toolName == ToolCallsIn(parse, text)[j].toolName
    ensures ToolCallsIn(parse, text)[i].arguments == ToolCallsIn(parse, text)[j].arguments
  {
  }

  /** A text without the Action opening tag yields no records. */
  lemma NoActionNoCalls(parse: string -> Option<Json>, text: string)
    requires FirstAt(text, ActionPattern.open, 0).None?
    ensures ToolCallsIn(parse, text) == []
  {
    NoOpenNoMatch(text, ActionPattern, 0);
    FindAllWithoutMatch(text, ActionPattern, 0);
  }

  /** The opening tag of an Action never occurs where an ActionInput opens
      (the eighth characters differ), so the two scans never compete for
      the same text. */
  lemma OpeningTagsDiffer(text: string, i: nat)
    ensures At(text, i, ActionInputPattern.open) ==> !At(text, i, ActionPattern.open)
  {
    if At(text, i, ActionInputPattern.open) {
      AtChar(text, i, ActionInputPattern.open, 7);
    }
  }
}
