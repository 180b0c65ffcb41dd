/**
  The session ledger of the prompt tracker.

  The store holds three tables, as the database does:
  - sessions, one per session key;
  - prompt snapshots, each carrying the full accumulated prompt text; the
    snapshots of one session form a chain, and the session's current
    prompt is the snapshot with the highest id;
  - tool calls extracted from LLM outputs, each pointing at the snapshot
    that recorded the output.
  Ids are auto-increment counters that start at 1. Every operation of the
  tracker is one atomic step: it either succeeds and adds rows, or fails
  and leaves the store as it was.
 */
module PromptLedger {
  import opened Wrappers
  import opened ToolCalls

  /** Why a snapshot was recorded. */
  datatype PromptType = Init | UserInput | SystemMarker | LlmOutput

  /** The status column of a session. The tracker sets none: the column
      default makes every new session `Active`. */
  datatype SessionStatus = Active | Completed | Error

  datatype SessionRecord = SessionRecord(id: nat, sessionId: string, initialPrompt: string, status: SessionStatus)

  datatype Snapshot = Snapshot(id: nat, sessionId: string, kind: PromptType, prompt: string)

  datatype ToolCallRecord = ToolCallRecord(id: nat, sessionId: string, promptId: nat, toolName: string, arguments: Json, description: string)

  /** What the tracker's operations return: the fields of the result
      dictionary, or its `error` message. */
  datatype Outcome =
    | Created(sessionId: string, sessionDbId: nat, promptId: nat, initialPromptLength: nat)
    | Appended(sessionId: string, promptId: nat, newPromptLength: nat)
    | LlmAppended(sessionId: string, promptId: nat, newPromptLength: nat, toolCallsExtracted: nat)
    | Failed(error: string)
  {
    predicate Success() { !Failed? }
  }

  /** A text with at least one character. */
  type NonEmptyString = s: string | s != [] witness "?"

  const NoHistoryError := "找不到会话的提示词历史"

  function DuplicateError(key: string): (r: string)
    ensures |r| == |key| + 7 && r[3..3 + |key|] == key
  {
    "会话 " + key + " 已存在"
  }

  // ---------------------------------------------------------------------
  // The texts the tracker writes
  // ---------------------------------------------------------------------

  /** `initial_prompt or default`: an absent or empty initial prompt falls
      back to the default one. */
  function ChosenPrompt(initialPrompt: Option<string>, default: string): (r: string)
    ensures initialPrompt.Some? && initialPrompt.value != [] ==> r == initialPrompt.value
    ensures initialPrompt.None? || initialPrompt.value == [] ==> r == default
    ensures default != [] ==> r != []
  {
    if initialPrompt.Some? && initialPrompt.value != [] then initialPrompt.value else default
  }

  function UserInputFragment(userInput: string): (r: string)
    ensures |r| == |userInput| + 23
    ensures r[..11] == "<UserInput>" && r[|r| - 12..] == "</UserInput>"
  {
    "<UserInput>" + userInput + "</UserInput>"
  }

  function StartMarker(key: string, reason: string): (r: string)
    ensures |r| == |key| + |reason| + 55
    ensures r[..18] == "<Start><SessionId>" && r[|r| - 17..] == "</Reason></Start>"
  {
    "<Start><SessionId>" + key + "</SessionId><Reason>" + reason + "</Reason></Start>"
  }

  /** The next full prompt: the latest one, a line break, the fragment. */
  function Extend(latest: string, fragment: string): (r: string)
    ensures Follows(latest, r) && |r| == |latest| + 1 + |fragment|
  {
    latest + "\n" + fragment
  }

  /** The fragment can be read back from the extended text. */
  lemma ExtendRecoversFragment(latest: string, fragment: string)
    ensures Extend(latest, fragment)[|latest| + 1..] == fragment
  {
  }

  /** The user input wrapped in its tags can be read back between them. */
  lemma UserInputFragmentRecoversInput(u: string)
    ensures UserInputFragment(u)[11..11 + |u|] == u
    ensures |UserInputFragment(u)| == |u| + 23
  {
  }

  /** The key and the reason can be read back from the Start marker. */
  lemma StartMarkerRecoversFields(key: string, reason: string)
    ensures StartMarker(key, reason)[18..18 + |key|] == key
    ensures StartMarker(key, reason)[18 + |key| + 20..18 + |key| + 20 + |reason|] == reason
  {
  }

  // ---------------------------------------------------------------------
  // Snapshot chains
  // ---------------------------------------------------------------------

  /** The position of the snapshot a query ordered by descending id
      returns first: one with the highest id. */
  function LatestIndex(chain: seq<Snapshot>): (r: Option<nat>)
    ensures r.None? <==> chain == []
    ensures r.Some? ==> r.value < |chain| && forall i :: 0 <= i < |chain| ==> chain[i].id <= chain[r.value].id
  {
    if chain == [] then None
    else
      var last := |chain| - 1;
      match LatestIndex(chain[..last])
      case None => Some(last)
      case Some(j) => if chain[j].id <= chain[last].id then Some(last) else Some(j)
  }

  function Latest(chain: seq<Snapshot>): (r: Option<Snapshot>)
    ensures r.Some? <==> chain != []
    ensures r.Some? ==> r.value in chain && forall i :: 0 <= i < |chain| ==> chain[i].id <= r.value.id
  {
    match LatestIndex(chain)
    case None => None
    case Some(j) => Some(chain[j])
  }

  /** Ids are strictly increasing along the chain. */
  ghost predicate Increasing(chain: seq<Snapshot>)
  {
    forall i :: 0 < i < |chain| ==> chain[i - 1].id < chain[i].id
  }

  /** In a chain in id order, the latest snapshot is the last one appended. */
  lemma {:induction false} LatestIsLast(chain: seq<Snapshot>)
    requires chain != [] && Increasing(chain)
    ensures LatestIndex(chain) == Some(|chain| - 1)
    ensures Latest(chain) == Some(chain[|chain| - 1])
  {
    var front := chain[..|chain| - 1];
    if front != [] {
      assert Increasing(front);
      LatestIsLast(front);
    }
  }

  /** A well-formed chain for `key`: it starts with the `init` snapshot,
      ids grow, and each later text extends the previous text by a line
      break and a fragment. */
  ghost predicate ChainValid(key: string, chain: seq<Snapshot>)
  {
    && chain != []
    && chain[0].kind == Init
    && Increasing(chain)
    && (forall i :: 0 <= i < |chain| ==> chain[i].sessionId == key)
    && (forall i :: 0 < i < |chain| ==> chain[i].kind != Init && Follows(chain[i - 1].prompt, chain[i].prompt))
  }

  /** `next` is `prev`, a line break and a fragment. */
  ghost predicate Follows(prev: string, next: string)
  {
    prev + "\n" <= next
  }

  /** Snapshot texts only grow: every earlier text is a strict prefix of
      every later one in the same chain. */
  lemma {:induction false} ChainTextsGrow(key: string, chain: seq<Snapshot>, i: nat, j: nat)
    requires ChainValid(key, chain)
    requires i < j < |chain|
    ensures chain[i].prompt < chain[j].prompt
    decreases j
  {
    assert chain[j - 1].prompt < chain[j].prompt by {
      assert Follows(chain[j - 1].prompt, chain[j].prompt);
    }
    if i < j - 1 {
      ChainTextsGrow(key, chain, i, j - 1);
    }
  }

  /** A snapshot with a higher id than the last one, whose text extends the
      last text, keeps a chain well formed when appended. */
  lemma ChainValidAppend(key: string, chain: seq<Snapshot>, snapshot: Snapshot)
    requires ChainValid(key, chain)
    requires chain[|chain| - 1].id < snapshot.id && snapshot.sessionId == key && snapshot.kind != Init
    requires Follows(chain[|chain| - 1].prompt, snapshot.prompt)
    ensures ChainValid(key, chain + [snapshot])
  {
    var chain' := chain + [snapshot];
    forall i | 0 < i < |chain'|
      ensures chain'[i - 1].id < chain'[i].id && chain'[i].kind != Init && Follows(chain'[i - 1].prompt, chain'[i].prompt)
    {
      assert chain'[i - 1] == chain[i - 1];
      if i < |chain| {
        assert chain'[i] == chain[i];
      }
    }
    forall i | 0 <= i < |chain'|
      ensures chain'[i].sessionId == key
    {
      if i < |chain| {
        assert chain'[i] == chain[i];
      }
    }
  }

  // ---------------------------------------------------------------------
  // The store
  // ---------------------------------------------------------------------

  /** Every session has a chain of snapshots for its key and no chain is
      without a session; each chain is well formed, opens with the
      session's initial prompt and ends below the snapshot counter. */
  ghost predicate SessionsValid(sessions: map<string, SessionRecord>, prompts: map<string, seq<Snapshot>>, nextSessionId: nat, nextPromptId: nat)
  {
    ChainsHaveSessions(sessions, prompts) && EverySessionValid(sessions, prompts, nextSessionId, nextPromptId)
  }

  /** No chain is without a session. */
  ghost predicate ChainsHaveSessions(sessions: map<string, SessionRecord>, prompts: map<string, seq<Snapshot>>)
  {
    forall key :: key in prompts ==> key in sessions
  }

  /** Every session has a chain, and both are well formed. */
  ghost predicate EverySessionValid(sessions: map<string, SessionRecord>, prompts: map<string, seq<Snapshot>>, nextSessionId: nat, nextPromptId: nat)
  {
    forall key :: key in sessions ==>
      key in prompts && SessionValid(key, sessions[key], prompts[key], nextSessionId, nextPromptId)
  }

  /** One session row and its chain: the row names the key, is active and
      below the session counter; the chain is well formed, opens with the
      initial prompt and ends below the snapshot counter. */
  ghost predicate SessionValid(key: string, session: SessionRecord, chain: seq<Snapshot>, nextSessionId: nat, nextPromptId: nat)
  {
    && session.sessionId == key
    && session.id < nextSessionId
    && session.status == Active
    && ChainValid(key, chain)
    && chain[0].prompt == session.initialPrompt
    && chain[|chain| - 1].id < nextPromptId
  }

  /** Tool-call rows have ids in increasing order below the counter, and
      point at snapshot ids already handed out. */
  ghost predicate ToolCallsValid(toolCalls: seq<ToolCallRecord>, nextToolCallId: nat, nextPromptId: nat)
  {
    && (forall i :: 0 <= i < |toolCalls| ==> toolCalls[i].id < nextToolCallId && toolCalls[i].promptId < nextPromptId)
    && (forall i :: 0 < i < |toolCalls| ==> toolCalls[i - 1].id < toolCalls[i].id)
  }

  lemma ToolCallsValidLater(toolCalls: seq<ToolCallRecord>, nextToolCallId: nat, nextPromptId: nat, laterPromptId: nat)
    requires ToolCallsValid(toolCalls, nextToolCallId, nextPromptId) && nextPromptId <= laterPromptId
    ensures ToolCallsValid(toolCalls, nextToolCallId, laterPromptId)
  {
  }

  lemma SessionsValidCreate(sessions: map<string, SessionRecord>, prompts: map<string, seq<Snapshot>>, nextSessionId: nat, nextPromptId: nat, key: string, prompt: string)
    requires SessionsValid(sessions, prompts, nextSessionId, nextPromptId)
    requires key !in sessions
    ensures SessionsValid(sessions[key := SessionRecord(nextSessionId, key, prompt, Active)],
                          prompts[key := [Snapshot(nextPromptId, key, Init, prompt)]],
                          nextSessionId + 1, nextPromptId + 1)
  {
  }

  lemma SessionsValidAppend(sessions: map<string, SessionRecord>, prompts: map<string, seq<Snapshot>>, nextSessionId: nat, nextPromptId: nat, key: string, snapshot: Snapshot)
    requires SessionsValid(sessions, prompts, nextSessionId, nextPromptId)
    requires key in prompts
    requires snapshot.id == nextPromptId && snapshot.sessionId == key && snapshot.kind != Init
    requires Follows(prompts[key][|prompts[key]| - 1].prompt, snapshot.prompt)
    ensures SessionsValid(sessions, prompts[key := prompts[key] + [snapshot]], nextSessionId, nextPromptId + 1)
  {
    EverySessionValidAfterAppend(sessions, prompts, nextSessionId, nextPromptId, key, snapshot);
  }

  /** After an append to `key`, every session is well formed under the
      advanced counter: `key` with its longer chain, the others unchanged. */
  lemma EverySessionValidAfterAppend(sessions: map<string, SessionRecord>, prompts: map<string, seq<Snapshot>>, nextSessionId: nat, nextPromptId: nat,
                                     key: string, snapshot: Snapshot)
    requires SessionsValid(sessions, prompts, nextSessionId, nextPromptId)
    requires key in prompts
    requires snapshot.id == nextPromptId && snapshot.sessionId == key && snapshot.kind != Init
    requires Follows(prompts[key][|prompts[key]| - 1].prompt, snapshot.prompt)
    ensures ChainsHaveSessions(sessions, prompts[key := prompts[key] + [snapshot]])
    ensures EverySessionValid(sessions, prompts[key := prompts[key] + [snapshot]], nextSessionId, nextPromptId + 1)
  {
    var prompts' := prompts[key := prompts[key] + [snapshot]];
    forall k | k in sessions
      ensures k in prompts' && SessionValid(k, sessions[k], prompts'[k], nextSessionId, nextPromptId + 1)
    {
      if k == key {
        SessionValidAppend(key, sessions[key], prompts[key], nextSessionId, nextPromptId, snapshot);
      } else {
        assert prompts'[k] == prompts[k];
        SessionValidLater(k, sessions[k], prompts[k], nextSessionId, nextPromptId);
      }
    }
  }

  /** A later snapshot counter keeps a session well formed. */
  lemma SessionValidLater(key: string, session: SessionRecord, chain: seq<Snapshot>, nextSessionId: nat, nextPromptId: nat)
    requires SessionValid(key, session, chain, nextSessionId, nextPromptId)
    ensures SessionValid(key, session, chain, nextSessionId, nextPromptId + 1)
  {
  }

  /** Appending a snapshot with the next id, extending the last text, keeps
      a session well formed under the advanced counter. */
  lemma SessionValidAppend(key: string, session: SessionRecord, chain: seq<Snapshot>, nextSessionId: nat, nextPromptId: nat, snapshot: Snapshot)
    requires SessionValid(key, session, chain, nextSessionId, nextPromptId)
    requires snapshot.id == nextPromptId && snapshot.sessionId == key && snapshot.kind != Init
    requires Follows(chain[|chain| - 1].prompt, snapshot.prompt)
    ensures SessionValid(key, session, chain + [snapshot], nextSessionId, nextPromptId + 1)
  {
    ChainValidAppend(key, chain, snapshot);
    assert (chain + [snapshot])[0] == chain[0];
  }

  /** The three tables and their id counters. */
  datatype Tables = Tables(
    sessions: map<string, SessionRecord>,
    prompts: map<string, seq<Snapshot>>,
    toolCalls: seq<ToolCallRecord>,
    nextSessionId: nat,
    nextPromptId: nat,
    nextToolCallId: nat)
  {
    ghost predicate Valid()
    {
      && SessionsValid(sessions, prompts, nextSessionId, nextPromptId)
      && ToolCallsValid(toolCalls, nextToolCallId, nextPromptId)
    }

    /** The tables after inserting a session for `key` and its `init`
        snapshot, with the next ids. */
    function WithSession(key: string, prompt: string): (r: Tables)
      ensures key in r.sessions && r.sessions[key].initialPrompt == prompt
      ensures key in r.prompts && r.prompts[key] == [Snapshot(nextPromptId, key, Init, prompt)]
      ensures r.toolCalls == toolCalls && r.nextPromptId == nextPromptId + 1
    {
      this.(sessions := sessions[key := SessionRecord(nextSessionId, key, prompt, Active)],
            prompts := prompts[key := [Snapshot(nextPromptId, key, Init, prompt)]],
            nextSessionId := nextSessionId + 1,
            nextPromptId := nextPromptId + 1)
    }

    /** The tables after appending a snapshot with the next id to the chain
        of `key`. */
    function WithSnapshot(key: string, kind: PromptType, prompt: string): (r: Tables)
      requires key in prompts
      ensures r.sessions == sessions && r.toolCalls == toolCalls && r.nextPromptId == nextPromptId + 1
      ensures key in r.prompts && |r.prompts[key]| == |prompts[key]| + 1
      ensures r.prompts[key][|prompts[key]|] == Snapshot(nextPromptId, key, kind, prompt)
    {
      this.(prompts := prompts[key := prompts[key] + [Snapshot(nextPromptId, key, kind, prompt)]],
            nextPromptId := nextPromptId + 1)
    }

    /** The tables after inserting one row per call, with consecutive ids. */
    function WithToolCalls(key: string, promptId: nat, calls: seq<ToolCall>): (r: Tables)
      ensures r.sessions == sessions && r.prompts == prompts && r.nextPromptId == nextPromptId
      ensures |r.toolCalls| == |toolCalls| + |calls| && r.nextToolCallId == nextToolCallId + |calls|
    {
      this.(toolCalls := toolCalls + ToolCallRows(key, promptId, nextToolCallId, calls),
            nextToolCallId := nextToolCallId + |calls|)
    }

    /** The latest snapshot of a session key, if it has any. */
    function LatestFor(key: string): (r: Option<Snapshot>)
      ensures r.Some? <==> key in prompts && prompts[key] != []
      ensures r.Some? ==> r.value in prompts[key]
    {
      if key in prompts then Latest(prompts[key]) else None
    }
  }

  /** Empty tables, with every counter at its first id. */
  const EmptyTables := Tables(map[], map[], [], 1, 1, 1)

  lemma EmptyTablesValid()
    ensures EmptyTables.Valid()
  {
  }

  /** Inserting a session and its `init` snapshot, with the next ids. */
  method InsertSession(t: Tables, key: string, prompt: string) returns (t': Tables)
    requires t.Valid() && key !in t.sessions
    ensures t'.Valid()
    ensures t' == t.WithSession(key, prompt)
  {
    SessionsValidCreate(t.sessions, t.prompts, t.nextSessionId, t.nextPromptId, key, prompt);
    ToolCallsValidLater(t.toolCalls, t.nextToolCallId, t.nextPromptId, t.nextPromptId + 1);
    t' := t.WithSession(key, prompt);
  }

  /** Inserting a snapshot with the next id at the end of the chain of
      `key`; its text must extend the last text by a line break. */
  method InsertSnapshot(t: Tables, key: string, kind: PromptType, prompt: string) returns (t': Tables)
    requires t.Valid() && key in t.prompts && kind != Init
    requires Follows(t.prompts[key][|t.prompts[key]| - 1].prompt, prompt)
    ensures t'.Valid()
    ensures t' == t.WithSnapshot(key, kind, prompt)
  {
    var snapshot := Snapshot(t.nextPromptId, key, kind, prompt);
    SessionsValidAppend(t.sessions, t.prompts, t.nextSessionId, t.nextPromptId, key, snapshot);
    ToolCallsValidLater(t.toolCalls, t.nextToolCallId, t.nextPromptId, t.nextPromptId + 1);
    t' := t.WithSnapshot(key, kind, prompt);
  }

  /** Inserting a tool-call row with the next id, pointing at a snapshot id
      already handed out. */
  method InsertToolCall(t: Tables, key: string, promptId: nat, call: ToolCall) returns (t': Tables)
    requires t.Valid() && promptId < t.nextPromptId
    ensures t'.Valid()
    ensures t' == t.WithToolCalls(key, promptId, [call])
  {
    t' := t.WithToolCalls(key, promptId, [call]);
  }

  /** In valid tables the latest snapshot of a key is the last one of its
      chain. */
  lemma LatestOfValid(t: Tables, key: string)
    requires t.Valid() && key in t.prompts
    ensures t.prompts[key] != []
    ensures t.LatestFor(key) == Some(t.prompts[key][|t.prompts[key]| - 1])
  {
    LatestIsLast(t.prompts[key]);
  }

  /** In valid tables every session has a latest snapshot, its current
      prompt, which extends the session's initial prompt. */
  lemma CurrentExtendsInitial(t: Tables, key: string)
    requires t.Valid() && key in t.sessions
    ensures t.LatestFor(key).Some?
    ensures t.sessions[key].initialPrompt <= t.LatestFor(key).value.prompt
  {
    var chain := t.prompts[key];
    LatestIsLast(chain);
    if 0 < |chain| - 1 {
      ChainTextsGrow(key, chain, 0, |chain| - 1);
    }
  }

  /** After a session is created, its current prompt is the `init`
      snapshot; the current prompt of every other key is unchanged. */
  lemma CurrentAfterCreate(t: Tables, key: string, prompt: string, other: string)
    requires t.Valid() && key !in t.sessions && other != key
    ensures t.WithSession(key, prompt).LatestFor(key) == Some(Snapshot(t.nextPromptId, key, Init, prompt))
    ensures t.WithSession(key, prompt).LatestFor(other) == t.LatestFor(other)
  {
  }

  /** After an append, the current prompt of the key is the new snapshot. */
  lemma CurrentAfterAppend(t: Tables, key: string, kind: PromptType, prompt: string)
    requires t.Valid() && key in t.prompts
    requires Follows(t.prompts[key][|t.prompts[key]| - 1].prompt, prompt)
    ensures t.WithSnapshot(key, kind, prompt).LatestFor(key) == Some(Snapshot(t.nextPromptId, key, kind, prompt))
  {
    var chain := t.prompts[key] + [Snapshot(t.nextPromptId, key, kind, prompt)];
    assert Increasing(chain) by {
      forall i | 0 < i < |chain|
        ensures chain[i - 1].id < chain[i].id
      {
        assert chain[i - 1] == t.prompts[key][i - 1];
        if i < |t.prompts[key]| {
          assert chain[i] == t.prompts[key][i];
        }
      }
    }
    LatestIsLast(chain);
  }

  /** An append to one key leaves the current prompt of every other key as
      it was. */
  lemma AppendKeepsOthers(t: Tables, key: string, kind: PromptType, prompt: string, other: string)
    requires key in t.prompts && other != key
    ensures t.WithSnapshot(key, kind, prompt).LatestFor(other) == t.LatestFor(other)
  {
  }

  /** Recording tool calls leaves every session and snapshot as it was. */
  lemma ToolCallsKeepPrompts(t: Tables, key: string, promptId: nat, calls: seq<ToolCall>, other: string)
    ensures t.WithToolCalls(key, promptId, calls).LatestFor(other) == t.LatestFor(other)
    ensures t.WithToolCalls(key, promptId, calls).sessions == t.sessions
    ensures |t.WithToolCalls(key, promptId, calls).toolCalls| == |t.toolCalls| + |calls|
  {
  }

  /** After an LLM output is recorded with its calls, the new rows (one per
      call, in order) all belong to the key and point at the key's current
      snapshot, which is the `llm_output` snapshot just written. */
  lemma ToolCallsPointAtOutput(t: Tables, key: string, prompt: string, calls: seq<ToolCall>)
    requires t.Valid() && key in t.prompts
    requires Follows(t.prompts[key][|t.prompts[key]| - 1].prompt, prompt)
    ensures var t' := t.WithSnapshot(key, LlmOutput, prompt).WithToolCalls(key, t.nextPromptId, calls);
      && t'.LatestFor(key).Some? && t'.LatestFor(key).value.kind == LlmOutput
      && |t'.toolCalls| == |t.toolCalls| + |calls|
      && t'.toolCalls[..|t.toolCalls|] == t.toolCalls
      && forall i :: 0 <= i < |calls| ==>
           var row := t'.toolCalls[|t.toolCalls| + i];
           row.sessionId == key && row.promptId == t'.LatestFor(key).value.id && row.toolName == calls[i].toolName
  {
    CurrentAfterAppend(t, key, LlmOutput, prompt);
  }

  /** The rows recorded for the calls extracted from one LLM output. */
  function ToolCallRows(key: string, promptId: nat, firstId: nat, calls: seq<ToolCall>): (rows: seq<ToolCallRecord>)
    ensures |rows| == |calls|
    ensures forall i :: 0 <= i < |rows| ==>
              rows[i].id == firstId + i && rows[i].sessionId == key && rows[i].promptId == promptId &&
              rows[i].toolName == calls[i].toolName && rows[i].arguments == calls[i].arguments &&
              rows[i].description == calls[i].description
  {
    seq(|calls|, i requires 0 <= i < |calls| =>
      ToolCallRecord(firstId + i, key, promptId, calls[i].toolName, calls[i].arguments, calls[i].description))
  }

  /** The rows of a longer list of calls extend the rows of its prefix. */
  lemma ToolCallRowsSnoc(key: string, promptId: nat, firstId: nat, calls: seq<ToolCall>, call: ToolCall)
    ensures ToolCallRows(key, promptId, firstId, calls + [call])
         == ToolCallRows(key, promptId, firstId, calls) + ToolCallRows(key, promptId, firstId + |calls|, [call])
  {
  }

  /** Inserting one tool-call row per extracted call, in order, each with
      the next id. */
  method InsertToolCalls(t: Tables, key: string, promptId: nat, calls: seq<ToolCall>) returns (t': Tables)
    requires t.Valid() && promptId < t.nextPromptId
    ensures t'.Valid()
    ensures t' == t.WithToolCalls(key, promptId, calls)
  {
    t' := t;
    for k := 0 to |calls|
      invariant t'.Valid()
      invariant t' == t.WithToolCalls(key, promptId, calls[..k])
    {
      t' := InsertToolCall(t', key, promptId, calls[k]);
      ToolCallRowsSnoc(key, promptId, t.nextToolCallId, calls[..k], calls[k]);
      assert calls[..k] + [calls[k]] == calls[..k + 1];
    }
    assert calls[..|calls|] == calls;
  }

  /** The database: the tables, replaced as a whole by each committed step. */
  class Database {
    var tables: Tables

    /** An empty database. */
    constructor ()
      ensures tables == EmptyTables && tables.Valid()
    {
      tables := EmptyTables;
    }

    /** The query for the highest-id snapshot of a key, as a scan. */
    method QueryLatest(key: string) returns (r: Option<Snapshot>)
      ensures r == tables.LatestFor(key)
    {
      r := None;
      if key in tables.prompts {
        var chain := tables.prompts[key];
        for i := 0 to |chain|
          invariant r == Latest(chain[..i])
        {
          assert chain[..i + 1][..i] == chain[..i];
          if r.None? || r.value.id <= chain[i].id {
            r := Some(chain[i]);
          }
        }
        assert chain[..|chain|] == chain;
      }
    }
  }

  // ---------------------------------------------------------------------
  // The tracker
  // ---------------------------------------------------------------------

  /** The tracker: its default initial prompt and the JSON decoder it uses
      for tool arguments. */
  class PromptTracker {
    const defaultInitialPrompt: NonEmptyString
    const parseJson: string -> Option<Json>

    constructor (defaultPrompt: NonEmptyString, parse: string -> Option<Json>)
      ensures defaultInitialPrompt == defaultPrompt && parseJson == parse
    {
      defaultInitialPrompt := defaultPrompt;
      parseJson := parse;
    }

    /** `create_session`: a new key gets a session and an `init` snapshot
      holding the chosen prompt; an existing key is refused. */
    method CreateSession(db: Database, key: string, initialPrompt: Option<string>) returns (out: Outcome)
      requires db.tables.Valid()
      modifies db
      ensures db.tables.Valid()
      ensures key in old(db.tables.sessions) ==> out == Failed(DuplicateError(key)) && db.tables == old(db.tables)
      ensures key !in old(db.tables.sessions) ==>
                var t := old(db.tables);
                var prompt := ChosenPrompt(initialPrompt, defaultInitialPrompt);
                && out == Created(key, t.nextSessionId, t.nextPromptId, |prompt|)
                && db.tables == t.WithSession(key, prompt)
      ensures out.Created? ==> out.initialPromptLength > 0
    {
      var prompt := ChosenPrompt(initialPrompt, defaultInitialPrompt);
      if key in db.tables.sessions {
        return Failed(DuplicateError(key));
      }
      var sessionDbId, promptId := db.tables.nextSessionId, db.tables.nextPromptId;
      db.tables := InsertSession(db.tables, key, prompt);
      out := Created(key, sessionDbId, promptId, |prompt|);
    }

    /** The shared step of the three appends: read the latest snapshot,
      record the extended text, or fail when the key has no history. */
    method Append(db: Database, key: string, kind: PromptType, fragment: string) returns (promptId: Option<nat>, prompt: string)
      requires db.tables.Valid() && kind != Init
      modifies db
      ensures db.tables.Valid()
      ensures old(db.tables.LatestFor(key)).None? ==> promptId.None? && db.tables == old(db.tables)
      ensures old(db.tables.LatestFor(key)).Some? ==>
                var t := old(db.tables);
                && prompt == Extend(t.LatestFor(key).value.prompt, fragment)
                && promptId == Some(t.nextPromptId)
                && db.tables == t.WithSnapshot(key, kind, prompt)
    {
      var latest := db.QueryLatest(key);
      if latest.None? {
        return None, [];
      }
      LatestOfValid(db.tables, key);
      prompt := Extend(latest.value.prompt, fragment);
      promptId := Some(db.tables.nextPromptId);
      db.tables := InsertSnapshot(db.tables, key, kind, prompt);
    }

    /** `add_user_input`: appends the input wrapped in `<UserInput>` tags. */
    method AddUserInput(db: Database, key: string, userInput: string) returns (out: Outcome)
      requires db.tables.Valid()
      modifies db
      ensures db.tables.Valid()
      ensures old(db.tables.LatestFor(key)).None? ==> out == Failed(NoHistoryError) && db.tables == old(db.tables)
      ensures old(db.tables.LatestFor(key)).Some? ==>
                var t := old(db.tables);
                var prompt := Extend(t.LatestFor(key).value.prompt, UserInputFragment(userInput));
                && out == Appended(key, t.nextPromptId, |prompt|)
                && db.tables == t.WithSnapshot(key, UserInput, prompt)
    {
      var promptId, prompt := Append(db, key, UserInput, UserInputFragment(userInput));
      if promptId.None? {
        return Failed(NoHistoryError);
      }
      out := Appended(key, promptId.value, |prompt|);
    }

    /** `add_system_marker`: appends the `<Start>` marker naming the key and
      the reason. */
    method AddSystemMarker(db: Database, key: string, reason: string) returns (out: Outcome)
      requires db.tables.Valid()
      modifies db
      ensures db.tables.Valid()
      ensures old(db.tables.LatestFor(key)).None? ==> out == Failed(NoHistoryError) && db.tables == old(db.tables)
      ensures old(db.tables.LatestFor(key)).Some? ==>
                var t := old(db.tables);
                var prompt := Extend(t.LatestFor(key).value.prompt, StartMarker(key, reason));
                && out == Appended(key, t.nextPromptId, |prompt|)
                && db.tables == t.WithSnapshot(key, SystemMarker, prompt)
    {
      var promptId, prompt := Append(db, key, SystemMarker, StartMarker(key, reason));
      if promptId.None? {
        return Failed(NoHistoryError);
      }
      out := Appended(key, promptId.value, |prompt|);
    }

    /** `add_llm_output`: appends the output verbatim, then records one
      tool-call row per call extracted from the output alone. */
    method AddLlmOutput(db: Database, key: string, llmOutput: string) returns (out: Outcome)
      requires db.tables.Valid()
      modifies db
      ensures db.tables.Valid()
      ensures old(db.tables.LatestFor(key)).None? ==> out == Failed(NoHistoryError) && db.tables == old(db.tables)
      ensures old(db.tables.LatestFor(key)).Some? ==>
                var t := old(db.tables);
                var prompt := Extend(t.LatestFor(key).value.prompt, llmOutput);
                out == LlmAppended(key, t.nextPromptId, |prompt|, |ToolCallsIn(parseJson, llmOutput)|)
      ensures old(db.tables.LatestFor(key)).Some? ==>
                var t := old(db.tables);
                var prompt := Extend(t.LatestFor(key).value.prompt, llmOutput);
                var calls := ToolCallsIn(parseJson, llmOutput);
                db.tables == t.WithSnapshot(key, LlmOutput, prompt).WithToolCalls(key, t.nextPromptId, calls)
    {
      var promptId, prompt := Append(db, key, LlmOutput, llmOutput);
      if promptId.None? {
        return Failed(NoHistoryError);
      }
      var calls := ExtractToolCalls(parseJson, llmOutput);
      db.tables := InsertToolCalls(db.tables, key, promptId.value, calls);
      out := LlmAppended(key, promptId.value, |prompt|, |calls|);
    }

    /** `get_current_prompt`: the text of the key's highest-id snapshot, or
      nothing when the key has none; the database is only read. */
    method GetCurrentPrompt(db: Database, key: string) returns (r: Option<string>)
      ensures r.None? <==> db.tables.LatestFor(key).None?
      ensures r.Some? ==> r.value == db.tables.LatestFor(key).value.prompt
    {
      var latest := db.QueryLatest(key);
      if latest.None? {
        return None;
      }
      return Some(latest.value.prompt);
    }
  }
}
