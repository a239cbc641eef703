/**
  The tool-calling SQL agent: a three-node pipeline (language model, tool
  dispatch, summary) over a mutable state record.

  The language model is an uninterpreted parameter `llm: string -> AIMessage`
  and the database is an uninterpreted parameter `db: string -> QueryOutcome`,
  so every node is a function of the state it receives and these two.
 */
module SqlAgent {

  datatype Option<T> = None | Some(value: T)

  /** One tool call requested by the model: the tool's name and its arguments. */
  datatype ToolCall = ToolCall(name: string, args: map<string, string>)

  /** The model's reply: its text and the tool calls it requests, in order. */
  datatype AIMessage = AIMessage(content: string, toolCalls: seq<ToolCall>)

  /** The `response` slot holds nothing, the model's message, or the final text. */
  datatype Response = NoResponse | Message(message: AIMessage) | Text(text: string)

  /** What the database makes of a query: no rows, a rendered table, or an error. */
  datatype QueryOutcome = Empty | Rows(table: string) | Failed(error: string)

  /** A snapshot of the state record. */
  datatype State = State(
    userQuery: string,
    sqlQuery: Option<string>,
    queryResult: Option<string>,
    response: Response)

  const RunSqlQueryTool: string := "run_sql_query"
  const GetTableSchemaTool: string := "get_table_schema"
  const SqlArg: string := "sql"
  const NoRecordsMessage: string := "No matching records found."
  const SqlErrorPrefix: string := "Error executing SQL: "
  const UnknownToolPrefix: string := "Unknown tool: "

  /** The fixed description of the `sales` table returned by `get_table_schema`. */
  const TableSchema: string :=
    "\n    Table: sales\n    Columns:\n      - order_id (INTEGER)\n      - customer (TEXT)\n"
    + "      - region (TEXT)\n      - product (TEXT)\n      - quantity (INTEGER)\n"
    + "      - price (REAL)\n      - total (REAL)\n    "

  // ---------------------------------------------------------------------------
  // Whitespace stripping, as Python's str.strip() with no argument does it.

  /** The characters Python's str.isspace() accepts: the ASCII blanks and control
      separators, and the Unicode spaces and line/paragraph separators. Letters
      and digits are never among them. */
  predicate IsSpace(c: char): (b: bool)
    ensures c == ' ' || c == '\t' || c == '\n' || c == '\r' ==> b
    ensures ('0' <= c <= '9') || ('a' <= c <= 'z') || ('A' <= c <= 'Z') ==> !b
  {
    ('\t' <= c <= '\r') || ('\U{1C}' <= c <= '\U{1F}') || c == ' ' || c == '\U{85}' || c == '\U{A0}'
    || c == '\U{1680}' || ('\U{2000}' <= c <= '\U{200A}') || c == '\U{2028}' || c == '\U{2029}'
    || c == '\U{202F}' || c == '\U{205F}' || c == '\U{3000}'
  }

  /** Drops the longest all-whitespace prefix: what is kept is a suffix of the
      input that does not start with whitespace. */
  function TrimLeft(s: string): (r: string)
    ensures |r| <= |s| && r == s[|s| - |r|..]
    ensures r == [] || !IsSpace(r[0])
  {
    if s != [] && IsSpace(s[0]) then TrimLeft(s[1..]) else s
  }

  /** Drops the longest all-whitespace suffix: what is kept is a prefix of the
      input that does not end with whitespace. */
  function TrimRight(s: string): (r: string)
    ensures |r| <= |s| && r == s[..|r|]
    ensures r == [] || !IsSpace(r[|r| - 1])
  {
    if s != [] && IsSpace(s[|s| - 1]) then TrimRight(s[..|s| - 1]) else s
  }

  /** Python's str.strip() with no argument: the result neither starts nor ends
      with whitespace. */
  function Strip(s: string): (r: string)
    ensures |r| <= |s|
    ensures r == [] || (!IsSpace(r[0]) && !IsSpace(r[|r| - 1]))
  {
    TrimRight(TrimLeft(s))
  }

  /** Everything TrimLeft drops is whitespace. */
  lemma {:induction false} TrimLeftShape(s: string)
    ensures forall i :: 0 <= i < |s| - |TrimLeft(s)| ==> IsSpace(s[i])
  {
    if s != [] && IsSpace(s[0]) {
      TrimLeftShape(s[1..]);
      var r := TrimLeft(s);
      forall i | 1 <= i < |s| - |r| ensures IsSpace(s[i]) {
        assert s[i] == s[1..][i - 1];
      }
    }
  }

  /** Everything TrimRight drops is whitespace. */
  lemma {:induction false} TrimRightShape(s: string)
    ensures forall i :: |TrimRight(s)| <= i < |s| ==> IsSpace(s[i])
  {
    if s != [] && IsSpace(s[|s| - 1]) {
      TrimRightShape(s[..|s| - 1]);
      var r := TrimRight(s);
      forall i | |r| <= i < |s| - 1 ensures IsSpace(s[i]) {
        assert s[i] == s[..|s| - 1][i];
      }
    }
  }

  /** The stripped text is a contiguous piece of the input with only whitespace
      around it. */
  lemma StripShape(s: string)
    ensures var r, k := Strip(s), |s| - |TrimLeft(s)|;
      && 0 <= k && k + |r| <= |s| && r == s[k..k + |r|]
      && (forall i :: 0 <= i < k ==> IsSpace(s[i]))
      && (forall i :: k + |r| <= i < |s| ==> IsSpace(s[i]))
  {
    TrimLeftShape(s);
    var l := TrimLeft(s);
    var k := |s| - |l|;
    TrimRightShape(l);
    TrimRightOfSuffix(s, k);
  }

  /** Trimming the right end of the suffix `s[k..]` keeps a slice of `s`
      whose trailing part in `s` is all whitespace. */
  lemma TrimRightOfSuffix(s: string, k: nat)
    requires k <= |s|
    ensures var r := TrimRight(s[k..]);
      && k + |r| <= |s| && r == s[k..k + |r|]
      && (forall i :: k + |r| <= i < |s| ==> IsSpace(s[i]))
      && (r != [] ==> r[0] == s[k])
  {
    var l := s[k..];
    TrimRightShape(l);
    var r := TrimRight(l);
    assert r == l[..|r|];
    forall i | k + |r| <= i < |s| ensures IsSpace(s[i]) {
      assert s[i] == l[i - k];
    }
  }

  /** Stripping twice is stripping once. */
  lemma StripIdempotent(s: string)
    ensures Strip(Strip(s)) == Strip(s)
  {
    var r := Strip(s);
    StripShape(s);
    assert TrimLeft(r) == r;
    assert TrimRight(r) == r;
  }

  // ---------------------------------------------------------------------------
  // Prompts.

  const AskedPrefix: string := "User asked: "
  const ToolInstruction: string := "Use 'run_sql_query' tool to answer this using the 'sales' table."
  const SchemaInstruction: string :=
    "Here is the exact schema of 'sales' table that you must use to generate SQL query for the user query. Schema: "
  const SchemaWarning: string := ". Do not invent schema on your own."
  const FollowupPrefix: string := "Generate a SQL query for this question:\n"
  const FollowupSchemaHeader: string := "Schema:\n"
  const FollowupFooter: string := "\nReturn SQL string only."

  /** A prompt assembled from a head, a middle and a tail, each kept in place. */
  function PrefixMiddleSuffix(head: string, middle: string, tail: string): (p: string)
    ensures |p| == |head| + |middle| + |tail|
    ensures p[..|head|] == head && p[|p| - |tail|..] == tail
  {
    var p := head + middle + tail;
    assert p == head + (middle + tail);
    p
  }

  /** The prompt the language-model node sends: the question right after
      "User asked: ", and the prompt ends with the schema text and the warning. */
  function LlmPrompt(userQuery: string): (p: string)
    ensures |AskedPrefix| + |userQuery| <= |p|
    ensures p[..|AskedPrefix|] == AskedPrefix
    ensures p[|AskedPrefix|..|AskedPrefix| + |userQuery|] == userQuery
    ensures |TableSchema + SchemaWarning| <= |p| && p[|p| - |TableSchema + SchemaWarning|..] == TableSchema + SchemaWarning
  {
    PrefixMiddleSuffix(AskedPrefix + userQuery, "\n" + ToolInstruction + SchemaInstruction, TableSchema + SchemaWarning)
  }

  /** The follow-up prompt used when a `run_sql_query` call carries no SQL: the
      question right after the request line, and the prompt ends with the schema
      text and the instruction to return SQL only. */
  function FollowupPrompt(userQuery: string): (p: string)
    ensures |FollowupPrefix| + |userQuery| <= |p|
    ensures p[..|FollowupPrefix|] == FollowupPrefix
    ensures p[|FollowupPrefix|..|FollowupPrefix| + |userQuery|] == userQuery
    ensures |TableSchema + FollowupFooter| <= |p| && p[|p| - |TableSchema + FollowupFooter|..] == TableSchema + FollowupFooter
  {
    PrefixMiddleSuffix(FollowupPrefix + userQuery, "\n" + FollowupSchemaHeader, TableSchema + FollowupFooter)
  }

  // ---------------------------------------------------------------------------
  // The tools.

  /** The `run_sql_query` tool: classifies the database's outcome into its text. */
  function RunSqlQuery(db: string -> QueryOutcome, sql: string): (r: string)
    ensures db(sql).Empty? ==> r == NoRecordsMessage
    ensures db(sql).Rows? ==> r == db(sql).table
    ensures db(sql).Failed? ==> |r| >= |SqlErrorPrefix| && r[..|SqlErrorPrefix|] == SqlErrorPrefix
                                && r[|SqlErrorPrefix|..] == db(sql).error
  {
    match db(sql)
    case Empty => NoRecordsMessage
    case Rows(table) => table
    case Failed(e) => SqlErrorPrefix + e
  }

  /** The SQL a `run_sql_query` call runs: its `sql` argument when that is present
      and non-empty, otherwise the stripped text of a follow-up model answer. */
  function ChosenSql(llm: string -> AIMessage, userQuery: string, args: map<string, string>): (sql: string)
    ensures SqlArg in args && args[SqlArg] != "" ==> sql == args[SqlArg]
    ensures (SqlArg !in args || args[SqlArg] == "") ==> sql == Strip(llm(FollowupPrompt(userQuery)).content)
  {
    var given := if SqlArg in args then args[SqlArg] else "";
    if given != "" then given else Strip(llm(FollowupPrompt(userQuery)).content)
  }

  /** The text one tool call stores into `query_result`. */
  function CallResult(llm: string -> AIMessage, db: string -> QueryOutcome, userQuery: string, call: ToolCall): (r: string)
    ensures call.name == RunSqlQueryTool ==> r == RunSqlQuery(db, ChosenSql(llm, userQuery, call.args))
    ensures call.name == GetTableSchemaTool ==> r == TableSchema
    ensures call.name != RunSqlQueryTool && call.name != GetTableSchemaTool ==>
              |r| >= |UnknownToolPrefix| && r[..|UnknownToolPrefix|] == UnknownToolPrefix && r[|UnknownToolPrefix|..] == call.name
  {
    if call.name == RunSqlQueryTool then RunSqlQuery(db, ChosenSql(llm, userQuery, call.args))
    else if call.name == GetTableSchemaTool then TableSchema
    else UnknownToolPrefix + call.name
  }

  /** The state after one tool call: `query_result` always takes the call's
      result; `sql_query` changes only for a `run_sql_query` call. */
  function ApplyCall(llm: string -> AIMessage, db: string -> QueryOutcome, call: ToolCall, st: State): (r: State)
    ensures r.userQuery == st.userQuery && r.response == st.response
    ensures r.queryResult == Some(CallResult(llm, db, st.userQuery, call))
    ensures call.name == RunSqlQueryTool ==> r.sqlQuery == Some(ChosenSql(llm, st.userQuery, call.args))
    ensures call.name != RunSqlQueryTool ==> r.sqlQuery == st.sqlQuery
  {
    var result := CallResult(llm, db, st.userQuery, call);
    if call.name == RunSqlQueryTool then
      st.(sqlQuery := Some(ChosenSql(llm, st.userQuery, call.args)), queryResult := Some(result))
    else
      st.(queryResult := Some(result))
  }

  /** The state after the tool calls, taken first to last. The last call's
      result is the final `query_result`; the user's question and the response
      slot are untouched. */
  function ApplyCalls(llm: string -> AIMessage, db: string -> QueryOutcome, calls: seq<ToolCall>, st: State): (r: State)
    ensures r.userQuery == st.userQuery && r.response == st.response
    ensures calls == [] ==> r == st
    ensures calls != [] ==> r.queryResult == Some(CallResult(llm, db, st.userQuery, calls[|calls| - 1]))
    decreases |calls|
  {
    if calls == [] then st else ApplyCalls(llm, db, calls[1..], ApplyCall(llm, db, calls[0], st))
  }

  /** Predicate: no call in `calls` is a `run_sql_query` call. */
  predicate NoSqlCall(calls: seq<ToolCall>)
  {
    forall j :: 0 <= j < |calls| ==> calls[j].name != RunSqlQueryTool
  }

  /** Without a `run_sql_query` call, `sql_query` keeps its value. */
  lemma {:induction false} NoSqlCallKeepsSqlQuery(llm: string -> AIMessage, db: string -> QueryOutcome, calls: seq<ToolCall>, st: State)
    requires NoSqlCall(calls)
    ensures ApplyCalls(llm, db, calls, st).sqlQuery == st.sqlQuery
    decreases |calls|
  {
    if calls != [] {
      assert NoSqlCall(calls[1..]) by {
        forall j | 0 <= j < |calls[1..]| ensures calls[1..][j].name != RunSqlQueryTool {
          assert calls[1..][j] == calls[j + 1];
        }
      }
      NoSqlCallKeepsSqlQuery(llm, db, calls[1..], ApplyCall(llm, db, calls[0], st));
    }
  }

  /** The last `run_sql_query` call in the list decides the final `sql_query`. */
  lemma {:induction false} LastSqlCallWins(llm: string -> AIMessage, db: string -> QueryOutcome, calls: seq<ToolCall>, st: State, k: nat)
    requires k < |calls| && calls[k].name == RunSqlQueryTool
    requires NoSqlCall(calls[k + 1..])
    ensures ApplyCalls(llm, db, calls, st).sqlQuery == Some(ChosenSql(llm, st.userQuery, calls[k].args))
    decreases |calls|
  {
    var st' := ApplyCall(llm, db, calls[0], st);
    if k == 0 {
      NoSqlCallKeepsSqlQuery(llm, db, calls[1..], st');
    } else {
      assert calls[1..][k - 1] == calls[k];
      assert calls[1..][k..] == calls[k + 1..];
      LastSqlCallWins(llm, db, calls[1..], st', k - 1);
    }
  }

  // ---------------------------------------------------------------------------
  // The three nodes as functions of the state.

  /** The language-model node: only the response slot changes, to the model's
      answer to the prompt built from the question. */
  function LlmStep(llm: string -> AIMessage, st: State): (r: State)
    ensures r.userQuery == st.userQuery && r.sqlQuery == st.sqlQuery && r.queryResult == st.queryResult
    ensures r.response.Message? && r.response.message == llm(LlmPrompt(st.userQuery))
  {
    st.(response := Message(llm(LlmPrompt(st.userQuery))))
  }

  /** The tool node: with no tool calls the response becomes the message text
      and nothing else changes; otherwise the calls are applied in order. */
  function ToolStep(llm: string -> AIMessage, db: string -> QueryOutcome, st: State): (r: State)
    requires st.response.Message?
    ensures r.userQuery == st.userQuery
    ensures st.response.message.toolCalls == [] ==>
              r == st.(response := Text(st.response.message.content))
    ensures st.response.message.toolCalls != [] ==>
              r.response == st.response &&
              r == ApplyCalls(llm, db, st.response.message.toolCalls, st)
  {
    var msg := st.response.message;
    if msg.toolCalls == [] then st.(response := Text(msg.content))
    else ApplyCalls(llm, db, msg.toolCalls, st)
  }

  /** The summary node: the answer is the query result, or "" when there is none. */
  function SummarizeStep(st: State): (r: State)
    ensures st.queryResult.Some? ==> r.response == Text(st.queryResult.value)
    ensures st.queryResult.None? ==> r.response == Text("")
    ensures r == st.(response := r.response)
  {
    st.(response := Text(if st.queryResult.Some? then st.queryResult.value else ""))
  }

  /** The record a question starts with: only the question is present. */
  function InitialState(userQuery: string): (st: State)
    ensures st.userQuery == userQuery && st.sqlQuery.None? && st.queryResult.None?
    ensures st.response.NoResponse?
  {
    State(userQuery, None, None, NoResponse)
  }

  /** One invocation of the pipeline: language model, then tools, then summary. */
  function RunChain(llm: string -> AIMessage, db: string -> QueryOutcome, userQuery: string): (st: State)
    ensures st.userQuery == userQuery
    ensures st.response.Text?
  {
    SummarizeStep(ToolStep(llm, db, LlmStep(llm, InitialState(userQuery))))
  }

  /** The answer of one invocation: when the model requests tools, the result of
      the last call; when it requests none, the empty text, since the summary
      node overwrites the message text with the absent query result. The
      question is never changed. */
  lemma ChainAnswer(llm: string -> AIMessage, db: string -> QueryOutcome, userQuery: string)
    ensures var calls := llm(LlmPrompt(userQuery)).toolCalls; var st := RunChain(llm, db, userQuery);
      && st.userQuery == userQuery
      && (calls != [] ==> st.response == Text(CallResult(llm, db, userQuery, calls[|calls| - 1])))
      && (calls == [] ==> st.response == Text("") && st.sqlQuery.None? && st.queryResult.None?)
  {
    var m := llm(LlmPrompt(userQuery));
    var st1 := LlmStep(llm, InitialState(userQuery));
    assert st1 == State(userQuery, None, None, Message(m));
    var st2 := ToolStep(llm, db, st1);
    if m.toolCalls == [] {
      assert st2 == State(userQuery, None, None, Text(m.content));
    } else {
      assert st2 == ApplyCalls(llm, db, m.toolCalls, st1);
      assert st2.queryResult == Some(CallResult(llm, db, userQuery, m.toolCalls[|m.toolCalls| - 1]));
    }
    assert RunChain(llm, db, userQuery) == SummarizeStep(st2);
  }

  // ---------------------------------------------------------------------------
  // The state record as the program holds it: a mutable object the nodes update.

  class AgentState {
    var userQuery: string
    var sqlQuery: Option<string>
    var queryResult: Option<string>
    var response: Response

    function View(): State
      reads this
    {
      State(userQuery, sqlQuery, queryResult, response)
    }

    /** A fresh record holding only the question. */
    constructor (question: string)
      ensures View() == InitialState(question)
    {
      userQuery := question;
      sqlQuery := None;
      queryResult := None;
      response := NoResponse;
    }

    method LlmNode(llm: string -> AIMessage)
      modifies this
      ensures View() == LlmStep(llm, old(View()))
    {
      var msg := llm(LlmPrompt(userQuery));
      response := Message(msg);
    }

    /** Runs the tool calls of the model's message one after the other. */
    method ToolNode(llm: string -> AIMessage, db: string -> QueryOutcome)
      requires response.Message?
      modifies this
      ensures View() == ToolStep(llm, db, old(View()))
    {
      var msg := response.message;
      if msg.toolCalls == [] {
        response := Text(msg.content);
        return;
      }
      for i := 0 to |msg.toolCalls|
        invariant ApplyCalls(llm, db, msg.toolCalls[i..], View()) == ToolStep(llm, db, old(View()))
      {
        DispatchCall(llm, db, msg.toolCalls[i]);
        assert msg.toolCalls[i..][1..] == msg.toolCalls[i + 1..];
      }
    }

    /** The body of the tool node's loop: one call, dispatched on the tool's name. */
    method DispatchCall(llm: string -> AIMessage, db: string -> QueryOutcome, call: ToolCall)
      modifies this
      ensures View() == ApplyCall(llm, db, call, old(View()))
    {
      if call.name == RunSqlQueryTool {
        var sql := if SqlArg in call.args then call.args[SqlArg] else "";
        if sql == "" {
          var followup := llm(FollowupPrompt(userQuery));
          sql := Strip(followup.content);
        }
        assert sql == ChosenSql(llm, userQuery, call.args);
        sqlQuery := Some(sql);
        var result := RunSqlQuery(db, sql);
        queryResult := Some(result);
      } else if call.name == GetTableSchemaTool {
        queryResult := Some(TableSchema);
      } else {
        queryResult := Some(UnknownToolPrefix + call.name);
      }
    }

    method SummarizeNode()
      modifies this
      ensures View() == SummarizeStep(old(View()))
    {
      response := Text(if queryResult.Some? then queryResult.value else "");
    }
  }

  /** One invocation of the compiled pipeline on a fresh state record. */
  method Invoke(llm: string -> AIMessage, db: string -> QueryOutcome, userQuery: string) returns (answer: Response)
    ensures answer == RunChain(llm, db, userQuery).response
    ensures answer.Text?
  {
    var st := new AgentState(userQuery);
    st.LlmNode(llm);
    st.ToolNode(llm, db);
    st.SummarizeNode();
    answer := st.response;
  }
}
