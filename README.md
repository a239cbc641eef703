# LangGraph agents: review workflow and SQL tool dispatch

This project models two small agent graphs and proves properties of the models.

**Human-in-the-loop review** (`review.dfy`, module `HumanInLoop`). This is the graph in
`2_human_in_loop/graph.py`. A generation node (`llm_response`) builds a prompt from the
input and any accumulated feedback, calls the language model and counts the attempt. A
review gate (`human_review`) then suspends until a person approves or rejects. Approval
goes to the identity node `approve`. A rejection below three iterations regenerates; at
three or more it goes to `final_rejection`, which overwrites the response with a fixed
message.
- The language model is a parameter `llm: string -> string`.
- A suspension is resumed by an explicit `Resume(decision, feedback)` value.
- A rejection merges its feedback into the accumulated comment, as the review front end
  does before resuming.
- `RunReview` is the graph runtime: a loop that applies resumes while the graph is
  suspended at the gate. It is proved equal to the recursive specification `Run`.
- The lemmas show that a run from iteration 0 makes at most three generations, never
  passes iteration 3, and reaches a terminal node within three decisions.
- `RejectionsAccumulate` shows that rejections below the cap merge their feedback into
  the comment in order, and each regeneration answers the prompt carrying it.

**SQL agent with tools** (`sql_agent.dfy`, module `SqlAgent`). This is the pipeline in
`3_agent_for_sql/graph_with_tools.py`: language-model node, tool node, summary node.
- The state dictionary is the class `AgentState`. Its nodes are methods that update its
  fields in place.
- Each method is proved against a function on the `State` snapshot: `LlmStep`, `ToolStep`
  or `SummarizeStep`.
- The tool node's `for` loop dispatches each call on the tool's name. The loop body is
  the method `DispatchCall`.
- `run_sql_query` uses the `sql` argument, or the stripped text of a follow-up model
  answer when that argument is missing or empty. It classifies the database outcome
  (`Empty | Rows | Failed`) into text. `get_table_schema` returns the fixed schema text.
  Any other name gives `"Unknown tool: " + name`.
- The model and the database are the parameters `llm: string -> AIMessage` and
  `db: string -> QueryOutcome`.
- The lemmas show that the last call decides `query_result`, and the last
  `run_sql_query` call decides `sql_query`.
- `ChainAnswer` shows what the pipeline as written answers. When the model requests no
  tools, the tool node stores the message text as the response. The summary node then
  overwrites it with the absent query result, so the answer is the empty text.

From a new session the code allows three generations: the first makes the iteration 1,
and a rejection at iteration 3 goes to the rejection node (`ThreeRejections`,
`ReviewTerminates`).

## Model

| member | source | states |
|---|---|---|
| `HumanInLoop.Prompt` | 2_human_in_loop/graph.py:27-30 | the prompt starts with the input; it equals the input exactly when the comment is empty; otherwise the comment can be read back from between the feedback header and footer |
| `HumanInLoop.LlmResponse` | 2_human_in_loop/graph.py:26-40 | the iteration goes up by one; input and comment are unchanged; review is "regenerate" exactly when the comment is non-empty and "" exactly when it is empty; the response is the model's answer to the prompt |
| `HumanInLoop.HumanReview` | 2_human_in_loop/graph.py:43-55 | approve always routes to the approval node, whatever the iteration; reject routes to regeneration exactly when iteration < 3 and to the rejection node exactly when iteration >= 3; each route carries its review update |
| `HumanInLoop.FinalRejection` | 2_human_in_loop/graph.py:57-59 | the response becomes "Final rejection after 3 attempts." and no other field changes |
| `HumanInLoop.Approve` | 2_human_in_loop/graph.py:61-63 | the state is returned unchanged |
| `HumanInLoop.MergeFeedback` | 2_human_in_loop/streamlit_ui.py:57 | the new feedback alone if there was none before; otherwise the prior feedback, a newline, then the new one |
| `HumanInLoop.InitialState` | 2_human_in_loop/streamlit_ui.py:14-28 | a session starts with the user's input, an empty comment and iteration 0 |
| `HumanInLoop.ResumeReview` | 2_human_in_loop/graph.py:45-55 | one resume of the gate: approval keeps the state and sets review; regeneration adds exactly one iteration, merges the rejection's feedback into the comment, answers the prompt carrying the merged comment, and sets review to "regenerate" exactly when that comment is non-empty; rejection merges the feedback, sets the fixed message and keeps the iteration; the input never changes |
| `HumanInLoop.MergeAll` | 2_human_in_loop/streamlit_ui.py:57-61 | merging several feedback texts in turn keeps all earlier feedback as a prefix and ends with the latest text |
| `HumanInLoop.RunFrom` | 2_human_in_loop/graph.py:66-76 | a run from the suspended gate keeps the input, consumes resumes only from where it stands, stays suspended only when the resumes run out, and counts exactly one generation per iteration added |
| `HumanInLoop.Run` | 2_human_in_loop/graph.py:72-73 | a run enters at the generation node: the input is kept, the generations counted match the iterations added, and a run ends suspended only when the resumes run out |
| `HumanInLoop.RejectionsAccumulate` | 2_human_in_loop/graph.py:26-40 | rejections below the iteration cap each regenerate: the run stays at the gate with one more iteration and generation per rejection, the comment is the in-order merge of their feedback, and the response answers the prompt carrying that comment |
| `HumanInLoop.RunFromBounds` | 2_human_in_loop/graph.py:37 | from iteration 0, the generations counted equal the iteration, which stays between 1 and 3; a run suspends only when the resumes run out; the rejection node is reached only at iteration 3 with the fixed message |
| `HumanInLoop.RunFromTerminates` | 2_human_in_loop/graph.py:52-55 | a run at iteration n <= 3 reaches a terminal node within 4 - n more decisions, whatever they are |
| `HumanInLoop.ReviewTerminates` | 2_human_in_loop/graph.py:66-76 | starting at iteration 0, at most 3 generations happen, at most 3 decisions are used, and any 3 decisions reach the approval or rejection node |
| `HumanInLoop.ThreeRejections` | 2_human_in_loop/graph.py:52-58 | three rejections from a new session end at the rejection node with the fixed message after exactly 3 generations |
| `HumanInLoop.RejectThenApprove` | 2_human_in_loop/graph.py:50-53 | a rejection and then an approval end approved at iteration 2, with the response the model gave to the prompt carrying the feedback |
| `HumanInLoop.FeedbackAccumulates` | 2_human_in_loop/streamlit_ui.py:57-61 | rejections with "shorten it" and then "add an example" make the third generation's comment "shorten it\nadd an example" |
| `HumanInLoop.RunReview` | 2_human_in_loop/graph.py:66-76 | the runtime loop returns exactly `Run` of its inputs; from iteration 0 it makes at most 3 generations and stops at a terminal node when given at least 3 decisions |
| `SqlAgent.IsSpace` | 3_agent_for_sql/graph_with_tools.py:113 | the whitespace set of Python's `str.strip()`: space, tab, newline and carriage return are in it; ASCII letters and digits are not |
| `SqlAgent.TrimLeft` | 3_agent_for_sql/graph_with_tools.py:113 | left trimming keeps a suffix that does not start with whitespace |
| `SqlAgent.TrimRight` | 3_agent_for_sql/graph_with_tools.py:113 | right trimming keeps a prefix that does not end with whitespace |
| `SqlAgent.Strip` | 3_agent_for_sql/graph_with_tools.py:113 | the stripped SQL is no longer than the follow-up answer and neither starts nor ends with whitespace |
| `SqlAgent.TrimLeftShape` | 3_agent_for_sql/graph_with_tools.py:113 | everything left trimming drops is whitespace |
| `SqlAgent.TrimRightShape` | 3_agent_for_sql/graph_with_tools.py:113 | everything right trimming drops is whitespace |
| `SqlAgent.StripShape` | 3_agent_for_sql/graph_with_tools.py:113 | the stripped SQL is a contiguous slice of the follow-up answer with only whitespace around it |
| `SqlAgent.StripIdempotent` | 3_agent_for_sql/graph_with_tools.py:113 | stripping twice gives the same as stripping once |
| `SqlAgent.LlmPrompt` | 3_agent_for_sql/graph_with_tools.py:74-79 | the model's prompt has the question right after "User asked: " and ends with the schema text and the warning not to invent a schema |
| `SqlAgent.FollowupPrompt` | 3_agent_for_sql/graph_with_tools.py:108-112 | the follow-up prompt has the question right after its request line and ends with the schema text and the instruction to return SQL only |
| `SqlAgent.RunSqlQuery` | 3_agent_for_sql/graph_with_tools.py:22-31 | no rows give "No matching records found."; rows give the table text; a failure gives "Error executing SQL: " followed by the error, which can be read back |
| `SqlAgent.ChosenSql` | 3_agent_for_sql/graph_with_tools.py:105-113 | a present, non-empty `sql` argument is used as it is; a missing or empty one is replaced by the stripped content of the follow-up model answer |
| `SqlAgent.CallResult` | 3_agent_for_sql/graph_with_tools.py:104-124 | `run_sql_query` yields the runner's text for the chosen SQL; `get_table_schema` yields the fixed schema text; any other name yields "Unknown tool: " followed by that name |
| `SqlAgent.ApplyCall` | 3_agent_for_sql/graph_with_tools.py:104-124 | every call sets `query_result` to its result; only `run_sql_query` sets `sql_query`, to the chosen SQL; the question and the response are untouched |
| `SqlAgent.ApplyCalls` | 3_agent_for_sql/graph_with_tools.py:98-126 | with several calls, the final `query_result` is the last call's result; the question and the response are never modified |
| `SqlAgent.NoSqlCallKeepsSqlQuery` | 3_agent_for_sql/graph_with_tools.py:104-115 | with no `run_sql_query` call among the calls, `sql_query` keeps its prior value |
| `SqlAgent.LastSqlCallWins` | 3_agent_for_sql/graph_with_tools.py:98-117 | the final `sql_query` is the SQL chosen by the last `run_sql_query` call in the list |
| `SqlAgent.LlmStep` | 3_agent_for_sql/graph_with_tools.py:71-83 | only the response changes; it becomes the model's message for the prompt built from the question and the schema |
| `SqlAgent.ToolStep` | 3_agent_for_sql/graph_with_tools.py:86-126 | with no tool calls, the response becomes the message content and nothing else changes; otherwise the calls are applied in order and the response stays the message |
| `SqlAgent.SummarizeStep` | 3_agent_for_sql/graph_with_tools.py:129-132 | the response becomes the query result, or "" when there is none; nothing else changes |
| `SqlAgent.InitialState` | 3_agent_for_sql/graph_with_tools.py:161 | a question starts a record holding only the question: no SQL, no query result, no response |
| `SqlAgent.RunChain` | 3_agent_for_sql/graph_with_tools.py:138-146 | the nodes run in the order llm, tool, summarize; the question is unchanged and the response ends as text |
| `SqlAgent.ChainAnswer` | 3_agent_for_sql/graph_with_tools.py:138-146 | after llm, tool and summarize in that order, the answer is the last tool call's result; with no tool calls it is "" and `sql_query`/`query_result` stay absent; the question is unchanged |
| `SqlAgent.AgentState.constructor` | 3_agent_for_sql/graph_with_tools.py:161 | a fresh state holds only the question |
| `SqlAgent.AgentState.LlmNode` | 3_agent_for_sql/graph_with_tools.py:71-83 | the in-place update equals `LlmStep` of the old state |
| `SqlAgent.AgentState.ToolNode` | 3_agent_for_sql/graph_with_tools.py:86-126 | the loop over the tool calls leaves the state equal to `ToolStep` of the old state |
| `SqlAgent.AgentState.DispatchCall` | 3_agent_for_sql/graph_with_tools.py:99-124 | one iteration of the loop leaves the state equal to `ApplyCall` of the old state |
| `SqlAgent.AgentState.SummarizeNode` | 3_agent_for_sql/graph_with_tools.py:129-132 | the in-place update equals `SummarizeStep` of the old state |
| `SqlAgent.Invoke` | 3_agent_for_sql/graph_with_tools.py:138-146 | running the three nodes in order on a fresh state gives the response of `RunChain`, which is always text |

## Left out

- Language-model calls (`ChatGroq.invoke`) are network calls. They are parameters: a fixed function of the prompt, so the same prompt always gets the same answer.
- `print` output, the `while True: input(...)` chat loop of the SQL agent, and the Streamlit widgets and session state are I/O. They are not modelled. The only front-end rule kept is the feedback merge, with the comment update that goes with a rejection.
- The graph runtime's `interrupt`, `Command`, `InMemorySaver` checkpointing and `compile` are library code. A suspension is modelled as the run stopping at the review gate. A resume is the next `Resume` value, not a stored continuation.
- The `human_review -> END` edge is never taken, because the `Command` returned by the gate always names the next node. It is not modelled.
- `human_review` returns nothing for a decision other than approve or reject. The decision is a two-valued type, so that case does not arise.
- `RunReview` stops consuming resumes once a terminal node is reached. What the graph runtime does with a resume after the graph has ended is library behaviour and is not modelled.
- An exception raised by `llm.invoke` propagates out of `agent.invoke`; the program neither catches it nor rolls back. The model's `llm` is total, so this path is not modelled. The program has no session lookup and no decision validation of its own, so there is nothing of either to model.
- SQLite and pandas (`read_sql_query`, `df.empty`, `to_string`) are foreign libraries. The database is the `db` parameter, returning `Empty`, `Rows(text)` or `Failed(message)`.
- The database is treated as fixed for the whole run: `db` is a function of the SQL text alone. In the program one module-level connection serves every tool call and every question, and model-generated SQL may write to it, changing what later queries return. A statement that changes the database is not modelled, so the exact `query_result` values stated by `ApplyCalls`, `LastSqlCallWins` and `ChainAnswer` hold only for a database that no call modifies.
- Tool-call argument values are strings. The source accepts any JSON value for `sql`, and a non-string truthy value would be used as it is. A missing `args` entry is an empty map.
- `SqlAgent.AgentState.ToolNode` requires the response slot to hold a model message. The source would raise an attribute error on anything else, and in the graph the language-model node always puts a message there.
- The initial SQL state omits `sql_query` and `query_result`. Both are modelled as `None`, and `summarize_node`'s `get(..., '')` maps a missing key to "".
- `3_agent_for_sql/load_db.py`, `1_simple_agent/graph.py` and `3_agent_for_sql/graph.py` are not part of this model. They are database setup, and pass-through pipelines with no logic beyond what is modelled here.
