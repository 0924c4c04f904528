# HR Leave Management: a Dafny model of the leave agent

The system is a chat assistant for leave requests. An authenticated user (an employee, a
supervisor or HR) sends a chat message to `POST /api/chat`. The handler turns the
browser's history into a transcript. For an employee, it adds the supervisor recorded in
the user directory to the caller's identity. It then runs a LangGraph agent:
- node `agent` asks the language model for a reply;
- node `action` runs the tools the reply requests;
- the two alternate until a reply requests no tool, and that reply's text is the answer.

There are five tools, all on the MongoDB collection `leave_requests`:
- `create_leave_request` and `approve_or_reject_request` write;
- `get_my_leave_requests`, `get_pending_supervisor_requests` and `get_pending_hr_requests`
  read.

The model has six modules: one per core source file, one for the ids and two small shared ones:

- `Wrappers` (`wrappers.dfy`): the `Option` and `Result` types.
- `Filtering` (`filtering.dfy`): `Positions`, the increasing positions a filter keeps, each
  once. It describes the queries' `find` and the history loop of the chat handler.
- `ObjectIds` (`object_ids.dfy`): the 24-hex-digit text of a document id. This is what
  `str(ObjectId)` renders and what `ObjectId(text)` accepts.
- `LeaveTools` (`leave_tools.dfy`): the tools over a value `Db`. `Db` holds the documents in
  insertion order and a fresh-id counter. A query lists its matches in that order. `Valid()` states that the ids are distinct and
  all below the counter.
  - The class `LeaveRequestStore` is the collection as an object. Its methods update it in
    place and are proved equal to the functions on `Db`.
  - Argument validation against each tool's schema (`BindCreate`, `BindApprove`) and
    `tool.invoke` (`InvokeTool`) are modelled as well.
- `AgentGraph` (`agent_graph.dfy`): covers the following.
  - `tool_map`.
  - The prompt context that `call_model` derives from `user_info`.
  - `call_tool` as a loop over the store. `DispatchAll` is its specification.
  - `should_continue`.
  - The compiled graph: `Run` is the specification function; `RunGraph` is the loop
    against the store.
- `Chat` (`chat.dfy`): `handle_chat`. It covers the 400 check, the history conversion,
  the identity given to the agent, the run, and the 200 and 500 answers.

The model treats these as parameters:
- the language model: a `Gateway` from prompt context and transcript to a reply or an error;
- the clock, the database's failures and the outcomes of an insert and an update: `Effects`, one per tool
  call, drawn from an `Environment` indexed by the call's position in the run;
- the date parser: `DateParser`;
- the user directory lookup: `UserLookup`.

In the proofs of the graph, each tool call is an abstract `Step` and the tool node an
abstract `ActionNode`. The predicates `RunsLeaveTools` and `DispatchesEach` tie them to
the leave tools. This keeps the concrete tools out of proofs that never run a tool.

## Model

| member | source | states |
|---|---|---|
| ObjectIds.ParseObjectId | app/tools/leave_tools.py:131 | the id text is accepted exactly when it is 24 hexadecimal digits (either case); the value is then below 16^24 |
| ObjectIds.RenderId | app/tools/leave_tools.py:93 | `str(_id)` renders every id as 24 hexadecimal digits (its inverse is `ParseObjectId`, see `IdRoundTrip`) |
| ObjectIds.IdRoundTrip | app/tools/leave_tools.py:93 | the text `str(_id)` renders for any id parses back to that same id |
| ObjectIds.RenderIdInjective | app/tools/leave_tools.py:93 | distinct ids render to distinct texts |
| LeaveTools.CreateRequest | app/tools/leave_tools.py:42-84 | `create_leave_request` writes at most one document, after the stored ones and under a fresh counter value; its other promises are the four lemmas below |
| LeaveTools.CreateErrorsWriteNothing | app/tools/leave_tools.py:45-84 | an unparsable start or end date, a failed ping or a raising insert writes nothing; the tool returns "An internal error occurred: <exception>." |
| LeaveTools.CreateAppendsOneRecord | app/tools/leave_tools.py:54-71 | either the store is unchanged, or exactly one document is appended under the fresh counter id; that document holds the arguments, the parsed dates, the clock's time, status pending_supervisor_approval, no audit fields and no rejection reason, and the earlier documents are kept |
| LeaveTools.CreateConfirmsOnlyAcknowledged | app/tools/leave_tools.py:73-78 | the success text naming the new id is returned iff both dates parse, the ping succeeds and the insert is acknowledged; then a document was added |
| LeaveTools.CreateKeepsValid | app/tools/leave_tools.py:71 | a create never gives two documents the same id |
| LeaveTools.LeaveRequestStore.CreateLeaveRequest | app/tools/leave_tools.py:42-84 | the in-place create leaves the store and returns the text that `CreateRequest` specifies, and keeps ids distinct |
| LeaveTools.BuildSetDoc | app/tools/leave_tools.py:120-128 | the `$set` holds the new status and the approver role's `_action_by`/`_action_at` pair; `rejection_reason` is set iff one was given and is non-empty |
| LeaveTools.ApplySet | app/tools/leave_tools.py:130-133 | MongoDB's `$set` gives the record the new status and the role's audit pair, keeps every other role's pair, sets `rejection_reason` only when the update carries one, and changes no other field |
| LeaveTools.IndexOf | app/tools/leave_tools.py:130-133 | `update_one` matches the first document with the id; no document matches iff the id is absent |
| LeaveTools.ApproveOrReject | app/tools/leave_tools.py:117-136 | `approve_or_reject_request` raises iff the id is not 24 hex digits, the database fails, or the update is unacknowledged (reading `modified_count` then raises); an update never adds or removes a document or uses an id; its other promises are `ApproveReportsItsEffect`, `ApproveUpdatesOneDocument` and `ApproveKeepsValid` |
| LeaveTools.ApproveReportsItsEffect | app/tools/leave_tools.py:117-136 | an invalid id raises InvalidId's text and a database error its own, neither writing anything; an unacknowledged update raises pymongo's `modified_count` text after its write, which may or may not have landed; otherwise the store changes iff the success text is returned ("Failed to update" otherwise); an unknown id changes nothing |
| LeaveTools.ApproveUpdatesOneDocument | app/tools/leave_tools.py:120-133 | when the `$set` lands, the first document with the id gets the new status, the approver role's audit pair and (if given) the rejection reason; all its other fields and every other document stay the same |
| LeaveTools.ApproveKeepsValid | app/tools/leave_tools.py:130-133 | no update, landed or not, gives two documents the same id or uses up an id |
| LeaveTools.LeaveRequestStore.ApproveOrRejectRequest | app/tools/leave_tools.py:117-136 | the in-place update leaves the store and returns or raises exactly as `ApproveOrReject` specifies, including the write before an unacknowledged update raises |
| LeaveTools.Select | app/tools/leave_tools.py:91-94 | a `find` returns the stored documents matching the filter, and only those, with `_id` as text |
| LeaveTools.SelectListsEachOnce | app/tools/leave_tools.py:91-94 | a `find` lists every matching document exactly once, in insertion order, and nothing else: the i-th result is the document at the i-th matching position |
| LeaveTools.GetMyLeaveRequests | app/tools/leave_tools.py:88-94 | a document is listed iff its employee_id is the given one; the list holds each such document exactly once, in insertion order |
| LeaveTools.GetPendingSupervisorRequests | app/tools/leave_tools.py:96-105 | a document is listed iff it has the given supervisor_id and status pending_supervisor_approval; each such document exactly once, in insertion order |
| LeaveTools.GetPendingHrRequests | app/tools/leave_tools.py:107-115 | a document is listed iff its status is approved_by_supervisor, whatever its supervisor; each such document exactly once, in insertion order |
| LeaveTools.Required | app/tools/leave_tools.py:15-21 | a required schema field binds iff it is present; a missing one yields the validation error naming it |
| LeaveTools.BindCreate | app/tools/leave_tools.py:15-21 | `CreateLeaveRequestInput` accepts the arguments iff its five required fields are present; the bound arguments are theirs, with `reason` optional |
| LeaveTools.BindApprove | app/tools/leave_tools.py:32-37 | `ApproveRejectRequestInput` accepts the arguments iff its four required fields are present; `rejection_reason` is optional |
| LeaveTools.InvokeTool | app/agents/leave_agent_graph.py:67 | `tool.invoke(args)` (validation, then the tool) writes nothing when it raises, unless it is an unacknowledged update; it never writes for the three query tools |
| LeaveTools.InvokeToolWrites | app/tools/leave_tools.py:42-136 | a tool call that raises writes nothing, except an update that raised because it was unacknowledged; the three query tools never write; create with valid arguments never raises |
| LeaveTools.InvokeToolKeepsValid | app/tools/leave_tools.py:42-136 | no tool call gives two documents the same id |
| LeaveTools.LeaveRequestStore.Invoke | app/agents/leave_agent_graph.py:67 | `tool.invoke(args)` on the store is `InvokeTool` on its value |
| LeaveTools.CreatedRequestIsVisible | app/tools/leave_tools.py:54-115 | a confirmed new request is listed for its employee and as pending for its supervisor, and is not on HR's list; its text id is the one in the success message |
| LeaveTools.ApprovedRequestReachesHr | app/tools/leave_tools.py:107-136 | setting approved_by_supervisor, once the update lands, puts the request on HR's list and takes it off its supervisor's pending list |
| LeaveTools.AnyStatusCanBeOverwritten | app/tools/leave_tools.py:117-136 | there is no transition or role guard: any stored request, in any status, takes any new status from any approver in any role |
| LeaveTools.LaterUpdateWins | app/tools/leave_tools.py:120-126 | after two updates by different roles, the later status wins and both roles' audit pairs are present |
| AgentGraph.ToolMap | app/agents/leave_agent_graph.py:17-24 | each of the five tools is registered under its own name, and no other name is registered |
| AgentGraph.DeriveContext | app/agents/leave_agent_graph.py:29-36 | role defaults to "unknown" and employee id to None; a supervisor id reaches the prompt iff the role is employee and user_info has one |
| AgentGraph.ShouldContinue | app/agents/leave_agent_graph.py:79-85 | the graph ends iff the last reply requests no tool |
| AgentGraph.Dispatch | app/agents/leave_agent_graph.py:60-75 | an unknown tool name invokes nothing and answers "Error: Tool '<name>' not found."; an exception is answered "Error: <exception>" and the store is left as the tool left it |
| AgentGraph.ToolStepOnlyWritersWrite | app/agents/leave_agent_graph.py:60-75 | a call naming neither writing tool leaves the store unchanged |
| AgentGraph.ToolStepKeepsValid | app/agents/leave_agent_graph.py:60-75 | no tool call gives two documents the same id |
| AgentGraph.DispatchAll | app/agents/leave_agent_graph.py:55-76 | a batch of tool calls is answered by one tool message per call, in order, each carrying its call's id |
| AgentGraph.DispatchAllAt | app/agents/leave_agent_graph.py:60-75 | the i-th answer is the i-th call run on the store that the calls before it left |
| AgentGraph.ReadOnlyBatch | app/agents/leave_agent_graph.py:55-76 | a batch that calls no writing tool leaves the store unchanged |
| AgentGraph.DispatchAllKeepsValid | app/agents/leave_agent_graph.py:55-76 | a batch keeps the document ids distinct |
| AgentGraph.ToolNodeAnswersEachCall | app/agents/leave_agent_graph.py:73-76 | the tool node answers every call with a message carrying its id |
| AgentGraph.Run | app/agents/leave_agent_graph.py:123-129 | the compiled graph from "agent" until a reply requests no tool, as a function; what it promises is stated by `RunExtends` and `RunAppendsRounds` |
| AgentGraph.RunExtends | app/agents/leave_agent_graph.py:12-14 | the `operator.add` state only ever grows the transcript; a finished run ends with a reply that requests no tool |
| AgentGraph.RunAppendsRounds | app/agents/leave_agent_graph.py:123-129 | a run appends whole rounds (a reply requesting tools, then exactly one tool message per call with matching ids), then the final reply if it finishes |
| AgentGraph.DispatchCall | app/agents/leave_agent_graph.py:60-75 | one iteration of `call_tool` on the store does what the tool step specifies |
| AgentGraph.CallTool | app/agents/leave_agent_graph.py:55-76 | the loop over the last reply's tool calls leaves the store and the tool messages that the action node specifies |
| AgentGraph.AgentRound | app/agents/leave_agent_graph.py:124-128 | one agent round either ends the run exactly as `Run` does or leaves the state from which `Run` continues with one round less |
| AgentGraph.RunGraph | app/agents/leave_agent_graph.py:123-129 | running the graph on the store yields the store, transcript and outcome that `Run` specifies, and keeps ids distinct |
| Chat.Convert | app/api/chat.py:21-25 | converting history yields only human messages and tool-free replies, no more messages than entries |
| Chat.ConvertKeepsOrder | app/api/chat.py:21-25 | conversion keeps every user and assistant entry exactly once, in the history's order, and drops every other: the transcript has as many history messages as such entries |
| Chat.ConvertAppend | app/api/chat.py:21-25 | conversion works entry by entry: converting joined histories joins the conversions |
| Chat.ConvertedMessages | app/api/chat.py:21-25 | a human message (a reply) is in the conversion iff a user (assistant) entry with that content is in the history |
| Chat.StartIndex | app/api/chat.py:20 | the first entry is skipped iff the history is non-empty and that entry's role is assistant |
| Chat.Conversation | app/api/chat.py:18-27 | the transcript is the converted history after the start index, followed by the new message as its last element |
| Chat.ConversationFromHistory | app/api/chat.py:18-27 | the transcript holds the new message, every user entry and every assistant entry except a leading greeting, and nothing else |
| Chat.ResubmittedPromptAppearsTwice | app/api/chat.py:27 | when the history already ends with the prompt, as the browser sends it, the prompt ends the transcript twice |
| Chat.BuildConversation | app/api/chat.py:18-27 | the history loop builds exactly `Conversation` |
| Chat.AgentUserInfo | app/api/chat.py:30-34 | the lookup runs only for an employee; it fails iff an employee's token lacks a username or the lookup raises; otherwise only supervisor_id is added, taken from the directory (None when absent) |
| Chat.PromptSupervisor | app/api/chat.py:30-36 | the prompt keeps the token's role and id; an employee's prompt carries the directory's supervisor, never the token's, and any other role's carries none |
| Chat.PrepareUserInfo | app/api/chat.py:30-34 | the copy-then-lookup steps compute `AgentUserInfo` |
| Chat.Respond | app/api/chat.py:41-48 | a finished run answers 200 with the last message's content; a gateway failure answers 500 with "An internal error occurred: <exception>", and running out of rounds with the recursion-limit text in the same form |
| Chat.Chat | app/api/chat.py:10-48 | 400 "Message is required" iff the message is absent or empty; statuses are only 200, 400 and 500, with an answer iff 200; an employee's token without a username or a raising lookup answers 500 with "An internal error occurred: <exception>" and writes nothing |
| Chat.ChatRunsGraph | app/api/chat.py:36-43 | a valid request is answered from the graph's run on the built transcript and the enriched identity |
| Chat.AnswerIsFinalReply | app/api/chat.py:36-43 | a 200 answer is the content of the run's final, tool-free reply; before it the run appended only whole tool rounds to the request's transcript |
| Chat.HandleChat | app/api/chat.py:10-48 | the handler on the store returns the response and leaves the store that `Chat` specifies for the leave tools, and keeps ids distinct |

## Left out

- The language model: Groq, the system prompt's text and `bind_tools` are not modelled. Each reply is given by the `Gateway` parameter.
- The clock and the database's behaviour are parameters (`Effects`):
  - a failing `server_info` ping, `find` or `update_one`;
  - an insert that is acknowledged, unacknowledged or raising;
  - an update that is acknowledged or unacknowledged. Whether writes are acknowledged is set by the connection string (app/utils/db.py:11), so both cases are modelled.
- Date parsing (`dateutil`) is a parameter. Dates are opaque instants, so no date arithmetic or date validation is modelled.
- MongoDB's network, connection setup and concurrent clients are not modelled. Each call works on a single-threaded store.
- Authentication is not modelled:
  - the JWT decoding of `token_required`;
  - the login route;
  - the Flask request and JSON layers.
  The decoded token is the `user` parameter, and `User.find_by_username` is the `lookup` parameter.
- The Streamlit front end is not modelled. Its behaviour of resending the prompt inside the history is stated only as `Chat.ResubmittedPromptAppearsTwice`.
- Debug printing and tracebacks are not modelled.
- AgentGraph.Dispatch: a tool's list output is kept as a structured `RecordList`, not as the `str()` text a tool message carries.
- LeaveTools.BindCreate: reports only the first missing field. A schema validator reports all missing fields at once, and its exact wording is only approximated by `MissingField`.
- LeaveTools.BindApprove: values are plain strings. A non-string argument and type coercion are not modelled.
- LeaveTools.BuildSetDoc: an `approver_role` that contains `$` or `.` would make MongoDB reject the update or write a nested field. The model always stores a flat `<role>_action_by` pair.
- ObjectIds.ParseObjectId: the model accepts exactly 24 hex digits. bson decodes a 24-character text with `bytes.fromhex`, which also skips whitespace between digit pairs, so such a text may not raise in the program; that case is not modelled.
- LeaveTools.InvalidIdError: the exception text quotes the id as `'<id>'`. Python's `%r` escapes quotes and backslashes in the id differently, which is not modelled.
- ObjectIds.RenderId: document ids range over 24-hex-digit values. The store's counter is not bounded by 16^24, so `RenderId` of a larger id is not the text MongoDB would give.
- Chat.Convert: an entry the loop reaches without a `role`, or a `user`/`assistant` entry it reaches without `content`, raises before the `try` block (a skipped leading greeting and an entry of another role are never read for `content`). That gives Flask's generic 500 page, which is not modelled: entries always have both fields.
- LeaveTools.Select: MongoDB promises no order for a `find` without a sort. The model lists the matches in insertion order, which is one order the database may return; the other orders are not modelled.
- AgentGraph.Run: LangGraph's recursion limit is modelled by a `fuel` bound on agent rounds, not by its count of super-steps.
  - With fuel, the tools of the last round always run before the run stops. LangGraph's limit can stop right after an agent step, before its tool calls run. So no fuel value reproduces the writes of a run that hits the limit at that point.
  - Running out of fuel answers 500 with the `RecursionLimitError` text. That text is not LangGraph's exact message.
- AgentGraph.DeriveContext: the context is derived once per run. This matches the source, because `user_info` never changes during a run.
- The source leaves several of the system's intended rules unenforced, and the model follows the code:
  - no role checks on who approves;
  - no status-transition rules;
  - no check that an employee creates only their own requests;
  - no check that a date range is well formed.
  `LeaveTools.AnyStatusCanBeOverwritten` states the resulting behaviour.
