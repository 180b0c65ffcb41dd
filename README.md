# Prompt tracker core, modelled in Dafny

The prompt tracker records how the prompt of an LLM conversation grows.
Each conversation is a *session*, identified by a caller-chosen key. The
tracker stores every version of the full prompt text as an immutable
*snapshot*:

- creating a session writes an `init` snapshot holding the initial prompt,
  or a built-in default prompt when none (or an empty one) is given;
- every later event appends one snapshot whose text is the latest text, a
  line break and a fragment:
  - a user input is wrapped in `<UserInput>` tags;
  - a system marker is a `<Start>` element naming the session key and a
    reason;
  - an LLM output is appended verbatim.
- For an LLM output, the tracker also scans the output for tool calls and
  stores one tool-call row per call, pointing at the new snapshot.
- The current prompt of a session is the text of its snapshot with the
  highest id.

The tool-call extractor looks for two fixed tag forms:
`<Action><ToolName>…</ToolName><Description>…</Description></Action>` and
`<ActionInput><ToolName>…</ToolName><Arguments>…</Arguments></ActionInput>`.

- Each Action gives one call, with its name and description stripped of
  surrounding whitespace.
- Its arguments come from the first ActionInput whose stripped name is
  equal. They are decoded as JSON.
- An undecodable payload falls back to `{"raw": <stripped payload>}`.
- A call with no matching ActionInput gets `{}`.

The project has five modules:

- `Wrappers` (`wrappers.dfy`): the `Option` type.
- `Strings` (`strings.dfy`): Python's whitespace set and `str.strip()`. It
  proves that only whitespace is removed, that the result is trimmed, and
  that a trimmed text is its own strip.
- `TagScan` (`tag_scan.dfy`): what `re.findall(OPEN(.*?)MID(.*?)CLOSE, text,
  re.DOTALL)` returns, defined the way a backtracking engine finds matches.
  The ghost function `FindAll` states this. A scanner that only searches for
  the three literals in turn is proved to return exactly those matches.
- `ToolCalls` (`tool_calls.dfy`): the extractor. The ghost function
  `ToolCallsIn` states what it returns. The imperative extractor keeps the
  source's two loops and is proved equal to it.
- `PromptLedger` (`ledger.dfy`) holds the store and the tracker.
  - The three tables are a value `Tables`, whose `Valid()` invariant every
    operation keeps:
    - every session has a chain of snapshots for its key;
    - every chain starts with `init` and has increasing ids;
    - each text extends the previous one by a line break;
    - tool-call rows point at snapshot ids already handed out.
  - `Database` is the mutable store.
  - `PromptTracker` holds the operations. Each one is a method that either
    replaces the tables by the tables with the new rows and returns the
    result record, or fails and changes nothing.

The JSON decoder is a parameter of the tracker (`parseJson`). Its result is
`None` exactly where `json.loads` raises `JSONDecodeError`. The default
initial prompt is also a parameter, of the non-empty string type
`NonEmptyString`.

Two details of the extractor, as the code has them:

- The raw fallback holds the stripped payload, `arguments_str.strip()`
  (core/prompt_tracker.py:301).
- ActionInputs are not used up: the inner loop searches the whole
  ActionInput list again for each Action, so two Actions with the same
  stripped name get the same arguments (`ToolCalls.SameNameSameArguments`).

One consequence of the lazy patterns is kept as the code has it. An Action
whose `</Description></Action>` closing is missing absorbs text up to the
next closing. That text can include later Action elements.

## Model

| member | source | states |
|---|---|---|
| Strings.IsSpace | core/prompt_tracker.py:290-301 | the characters Python's `str.strip()` removes (`str.isspace`): among them space, tab, line feed, carriage return, vertical tab and form feed, and the Unicode separators `str.isspace` accepts |
| Strings.Strip | core/prompt_tracker.py:290-291 | `str.strip()`: the result has no whitespace at either end and is no longer than the input |
| Strings.StripRemovesSpace | core/prompt_tracker.py:290-291 | the stripped text is what lies between a whitespace-only prefix and a whitespace-only suffix of the input |
| Strings.StripStartRemovesSpace | core/prompt_tracker.py:290 | leading stripping removes a whitespace-only prefix and keeps the rest as a suffix |
| Strings.StripEndRemovesSpace | core/prompt_tracker.py:290 | trailing stripping removes a whitespace-only suffix and keeps the rest as a prefix |
| Strings.StripOfTrimmed | core/prompt_tracker.py:301 | a text with no surrounding whitespace is its own strip |
| TagScan.At | core/prompt_tracker.py:280 | a literal that occurs at `i` fits in the text |
| TagScan.AtIsSlice | core/prompt_tracker.py:280 | a literal occurs at `i` exactly when the slice at `i` equals it |
| TagScan.MatchAt | core/prompt_tracker.py:281 | a match of the pattern anchored at `p` starts at `p`, covers at least the opening literal and ends inside the text |
| TagScan.MatchEndingGroup1At | core/prompt_tracker.py:280 | once the first group ends at `k`, the lazy second group runs to the first CLOSE after MID: the match starts at `p` and ends after that CLOSE, inside the text |
| TagScan.FindAll | core/prompt_tracker.py:281 | `re.findall`'s list of matches from `pos`: the leftmost match, then the matches after its end; every match lies at or after `pos` and inside the text |
| TagScan.FirstAt | core/prompt_tracker.py:281 | the first occurrence at or after `from` of a literal, with no occurrence before it, or none at all |
| TagScan.LazySplit | core/prompt_tracker.py:280 | the lazy first group ends at the least position where MID starts and CLOSE still follows |
| TagScan.Leftmost | core/prompt_tracker.py:281 | the match with the least start at or after `pos`, and no match starts before it |
| TagScan.FindAllMatchesInOrder | core/prompt_tracker.py:281 | every element that `findall` returns is a genuine match of the pattern at its start, and matches do not overlap and come in text order |
| TagScan.ScanIsLeftmost | core/prompt_tracker.py:280-281 | taking the first OPEN, then the first MID, then the first CLOSE finds exactly the leftmost lazy match |
| TagScan.FirstOpenMatches | core/prompt_tracker.py:281 | if the pattern matches at the first OPEN, that is the leftmost match |
| TagScan.NoSplitNoMatch | core/prompt_tracker.py:281 | if the first group cannot end after the first OPEN, nothing matches at or after it |
| TagScan.FirstMidIsLazySplit | core/prompt_tracker.py:280 | the lazy first group ends at the first MID when CLOSE follows it, and the pattern cannot match otherwise |
| TagScan.FindAllMatches | core/prompt_tracker.py:281 | the scanning loop returns exactly `re.findall`'s matches, `FindAll(s, pat, 0)` |
| TagScan.NextMatch | core/prompt_tracker.py:281 | one scanner step searches the three literals in turn and returns `Scan`, which is the leftmost match |
| TagScan.Find | core/prompt_tracker.py:281 | the linear search returns the first occurrence of the literal at or after `from` |
| ToolCalls.Decode | core/prompt_tracker.py:298-301 | `json.loads(payload.strip())`: the parser's value when the stripped payload parses, otherwise `{"raw": <stripped payload>}` |
| ToolCalls.Actions | core/prompt_tracker.py:280-281 | `re.findall` of the Action pattern over the text: each element is a genuine match at its start, and the matches come in text order without overlap |
| ToolCalls.ActionInputs | core/prompt_tracker.py:284-285 | `re.findall` of the ActionInput pattern over the text: each element is a genuine match at its start, and the matches come in text order without overlap |
| ToolCalls.ArgumentsFor | core/prompt_tracker.py:292-302 | the result of the inner loop for one Action name: `{}` when no ActionInput has that stripped name (otherwise the decoded payload of the first one, stated in `ArgumentsOfCall`) |
| ToolCalls.CallFor | core/prompt_tracker.py:288-302 | the record dict built for one Action match: name and description stripped, arguments from `ArgumentsFor` of the stripped name |
| ToolCalls.ToolCallsIn | core/prompt_tracker.py:275-306 | what `_extract_tool_calls` returns: one record per Action match, built from that match and the ActionInput matches |
| ToolCalls.DecodeTotal | core/prompt_tracker.py:298-301 | decoding never fails: it gives the parser's value, or `{"raw": p}` with `p` the stripped payload, which has no surrounding whitespace |
| ToolCalls.FirstNamed | core/prompt_tracker.py:296-297 | the index of the first ActionInput whose stripped name is the Action's name, and no earlier one has it, or none has it |
| ToolCalls.ExtractToolCalls | core/prompt_tracker.py:275-306 | `_extract_tool_calls` returns exactly `ToolCallsIn(text)`: one record per Action match, built from that match and the ActionInput matches |
| ToolCalls.BuildCalls | core/prompt_tracker.py:288-304 | record `i` of the loop's output is the call built from Action match `i` |
| ToolCalls.PairArguments | core/prompt_tracker.py:292-302 | the arguments start as `{}` and become the decoded payload of the first ActionInput with the same stripped name |
| ToolCalls.CallsFollowActions | core/prompt_tracker.py:288-304 | there is one record per Action match, in text order, carrying that match's stripped name and description, and each match is genuine |
| ToolCalls.CallsAreTrimmed | core/prompt_tracker.py:290-291 | stored names and descriptions have no surrounding whitespace |
| ToolCalls.ArgumentsOfCall | core/prompt_tracker.py:296-302 | the arguments of a record are the decoded payload of the first ActionInput with the same stripped name (case-sensitive equality) |
| ToolCalls.FirstNamedArguments | core/prompt_tracker.py:292-302 | for any ActionInput list, when index `k` is the first whose stripped name is the Action's name, the inner loop yields the decoded payload at `k` |
| ToolCalls.ArgumentsDefault | core/prompt_tracker.py:292 | with no ActionInput of that name, the arguments are `{}` |
| ToolCalls.SameNameSameArguments | core/prompt_tracker.py:296-302 | ActionInputs are not used up: two records with the same name get the same arguments |
| ToolCalls.NoActionNoCalls | core/prompt_tracker.py:281 | a text without the Action opening tag yields no records |
| ToolCalls.OpeningTagsDiffer | core/prompt_tracker.py:280-284 | the ActionInput opening tag never occurs where the Action opening tag does |
| PromptLedger.ChosenPrompt | core/prompt_tracker.py:58 | `initial_prompt or default`: a given non-empty prompt is used, and an absent or empty one gives the default; a non-empty default gives a non-empty text |
| PromptLedger.DuplicateError | core/prompt_tracker.py:65 | the duplicate-session message `会话 <key> 已存在`, which carries the key after its three-character prefix |
| PromptLedger.UserInputFragment | core/prompt_tracker.py:122 | the user input wrapped in `<UserInput>` and `</UserInput>`, 23 characters longer than the input |
| PromptLedger.StartMarker | core/prompt_tracker.py:169-170 | the `<Start><SessionId>…</SessionId><Reason>…</Reason></Start>` marker, 55 characters longer than the key and the reason together |
| PromptLedger.Extend | core/prompt_tracker.py:122 | the new text starts with the latest text and a line break and has length latest + 1 + fragment |
| PromptLedger.ExtendRecoversFragment | core/prompt_tracker.py:217 | the fragment can be read back after the latest text and the line break |
| PromptLedger.UserInputFragmentRecoversInput | core/prompt_tracker.py:122 | the user input can be read back between the tags, and the wrapper adds 23 characters |
| PromptLedger.StartMarkerRecoversFields | core/prompt_tracker.py:169 | the session key and the reason can be read back from the `<Start>` marker |
| PromptLedger.LatestIndex | core/prompt_tracker.py:111-113 | ordering by descending id and taking the first gives a snapshot with the highest id, or nothing exactly for an empty history |
| PromptLedger.Latest | core/prompt_tracker.py:111-113 | the snapshot the descending-id query returns first: present exactly for a non-empty history, one of its snapshots, with the highest id |
| PromptLedger.Tables.LatestFor | core/prompt_tracker.py:111-113 | the latest snapshot of a key: present exactly when the key has a non-empty history, and one of that key's snapshots |
| PromptLedger.Tables.WithSession | core/prompt_tracker.py:69-83 | the tables after the session row and its `init` snapshot are committed: the key's session holds the prompt, its history is that one snapshot under the next id, and the tool-call rows are unchanged |
| PromptLedger.Tables.WithSnapshot | core/prompt_tracker.py:125-131 | the tables after one snapshot is committed: the key's history grows by one entry, the new snapshot under the next id, and sessions and tool-call rows are unchanged |
| PromptLedger.Tables.WithToolCalls | core/prompt_tracker.py:229-238 | the tables after the tool-call rows are committed: the rows and the tool-call counter grow by the number of calls, and sessions and snapshots are unchanged |
| PromptLedger.LatestIsLast | core/prompt_tracker.py:111-113 | in a chain with increasing ids, the latest snapshot is the last one appended |
| PromptLedger.ChainTextsGrow | core/prompt_tracker.py:122 | each snapshot text of a session is a strict prefix of every later one |
| PromptLedger.ChainValidAppend | core/prompt_tracker.py:125-131 | appending a snapshot with a higher id, whose text extends the last one, keeps the chain well formed |
| PromptLedger.SessionsValidCreate | core/prompt_tracker.py:69-83 | a new session with its `init` snapshot keeps the sessions well formed |
| PromptLedger.SessionsValidAppend | core/prompt_tracker.py:125-131 | a snapshot with the next id appended to its key's chain keeps the sessions well formed |
| PromptLedger.EverySessionValidAfterAppend | core/prompt_tracker.py:125-131 | after a snapshot with the next id is appended to one key's chain, every chain still has a session and every session with its chain is well formed under the advanced counter |
| PromptLedger.SessionValidAppend | core/prompt_tracker.py:125-131 | appending a snapshot with the next id, whose text extends the last one, keeps that session's row and chain well formed |
| PromptLedger.SessionValidLater | core/prompt_tracker.py:125-131 | handing out a new snapshot id keeps every other session well formed |
| PromptLedger.ToolCallsValidLater | core/prompt_tracker.py:220-226 | handing out a new snapshot id keeps the tool-call rows well formed |
| PromptLedger.EmptyTablesValid | models/prompt_models.py:26-56 | empty tables, with every auto-increment counter at 1, are well formed |
| PromptLedger.InsertSession | core/prompt_tracker.py:69-83 | inserting the session row and its `init` snapshot with the next ids keeps the tables valid and adds exactly these rows |
| PromptLedger.InsertSnapshot | core/prompt_tracker.py:125-131 | inserting a snapshot with the next id keeps the tables valid and adds exactly that row |
| PromptLedger.InsertToolCall | core/prompt_tracker.py:231-238 | inserting one tool-call row with the next id keeps the tables valid |
| PromptLedger.InsertToolCalls | core/prompt_tracker.py:229-238 | the loop adds one row per call, in order, with consecutive ids, and keeps the tables valid |
| PromptLedger.ToolCallRowsSnoc | core/prompt_tracker.py:229-238 | the rows for one more call are the rows for the earlier calls followed by one row with the next id |
| PromptLedger.ToolCallRows | core/prompt_tracker.py:231-237 | row `i` carries id `first + i`, the session key, the snapshot id and the name, arguments and description of call `i` |
| PromptLedger.LatestOfValid | core/prompt_tracker.py:111-113 | in valid tables, the queried latest snapshot of a key is the last one of its chain |
| PromptLedger.CurrentExtendsInitial | core/prompt_tracker.py:260-269 | every session has a current prompt, and the session's initial prompt is a prefix of it |
| PromptLedger.CurrentAfterCreate | core/prompt_tracker.py:77-82 | after creation the current prompt of the key is its `init` snapshot, and other keys are unaffected |
| PromptLedger.CurrentAfterAppend | core/prompt_tracker.py:125-131 | after an append the current prompt of the key is the new snapshot |
| PromptLedger.AppendKeepsOthers | core/prompt_tracker.py:125-131 | an append to one key leaves the current prompt of every other key unchanged |
| PromptLedger.ToolCallsKeepPrompts | core/prompt_tracker.py:229-238 | recording tool calls changes no session and no current prompt, and adds one row per call |
| PromptLedger.ToolCallsPointAtOutput | core/prompt_tracker.py:229-238 | the rows added for an LLM output belong to its key and point at the key's current snapshot, which has kind `llm_output`; earlier rows are unchanged |
| PromptLedger.Database.QueryLatest | core/prompt_tracker.py:111-113 | the query scan returns exactly the highest-id snapshot of the key |
| PromptLedger.PromptTracker.constructor | core/prompt_tracker.py:19-20 | holds the default initial prompt, a non-empty text, and the JSON decoder |
| PromptLedger.PromptTracker.CreateSession | core/prompt_tracker.py:52-95 | an existing key fails with "会话 <key> 已存在" and changes nothing. Otherwise it adds a session and an `init` snapshot holding `initial_prompt or default`, and returns both new ids and that text's length, which is never zero |
| PromptLedger.PromptTracker.Append | core/prompt_tracker.py:109-131 | a key without history fails and changes nothing; otherwise it appends the latest text, a line break and the fragment, under the next id |
| PromptLedger.PromptTracker.AddUserInput | core/prompt_tracker.py:105-142 | a key without history fails with "找不到会话的提示词历史" and changes nothing; otherwise it appends `latest + "\n" + "<UserInput>" + input + "</UserInput>"` and returns its id and length |
| PromptLedger.PromptTracker.AddSystemMarker | core/prompt_tracker.py:152-190 | a key without history fails and changes nothing; otherwise it appends the `<Start>` marker with the key and the reason, and returns its id and length |
| PromptLedger.PromptTracker.AddLlmOutput | core/prompt_tracker.py:200-250 | a key without history fails and changes nothing. Otherwise it appends the output verbatim and stores one row per call in `ToolCallsIn(output)`, each pointing at the new snapshot id, and reports that count as `tool_calls_extracted` |
| PromptLedger.PromptTracker.GetCurrentPrompt | core/prompt_tracker.py:260-269 | the text of the key's highest-id snapshot, or nothing exactly when the key has no history; the store is not modified |

## Left out

- HTTP routes, request models, configuration, the demo and the connection setup are not part of this model.
- Database failures and the `except` branches that roll back and return `str(e)` are not modelled: the store never fails. Each tracker operation is modelled as one atomic step.
- Column length limits are not modelled, because a violation only surfaces as a database error: `String(64)` for keys, `String(100)` for tool names, and the `Text` column `prompts.prompt` (models/prompt_models.py:44), whose limit a growing chain of snapshot texts can reach.
- The timestamp columns are not modelled because they are clock readings. Logging is not modelled because it has no effect on the result.
- `json.loads` is the parameter `parseJson`, so the JSON grammar is not modelled. Exceptions other than `JSONDecodeError` that `json.loads` may raise are not modelled.
- The exception handler of `get_current_prompt` is not modelled. It returns `None` when the database fails.
- The text of the built-in default prompt is not modelled: it is a constructor argument of type `NonEmptyString`. The contracts use only that it is non-empty, which gives `CreateSession` a non-empty `init` text.
- The tracker sets no status; the column default (models/prompt_models.py:35) makes every new session `active`. None of the repository files this model draws on sets `completed` or `error`, so the model has only `Active` sessions.
- Concurrent use of one database by several callers is not modelled.
- Session keys are compared exactly, character by character. The database's collation is not modelled. The source compares keys in SQL (core/prompt_tracker.py:61, 111-113, 158-160, 206-208, 265-267), and test_db_connection.py:56 creates the database with `COLLATE utf8mb4_unicode_ci`, under which `=` ignores case, accents and trailing spaces. There, keys that differ only in those ways name the same session.
- PromptLedger.ToolCallsValid: the table invariant says only that row ids increase and that rows name already issued snapshot ids. The fact that a row's snapshot is an `llm_output` snapshot of the same key is proved for the rows each LLM output adds (`ToolCallsPointAtOutput`). It is not kept as a table invariant.
