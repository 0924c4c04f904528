/**
 * The chat endpoint: it turns the browser's history into a transcript, enriches an
 * employee's identity with the supervisor recorded for them, runs the agent graph and
 * answers with the last message of the run.
 *
 * The authenticated identity (`user`, the decoded token's fields) and the user directory
 * lookup (`lookup`, which may raise) are parameters; the HTTP layer and the JSON
 * encoding are not modelled.
 */
module Chat {
  import opened Wrappers
  import opened LeaveTools
  import opened AgentGraph
  import opened Filtering

  /** One entry of the history the browser sends: a role and a content. */
  datatype HistoryEntry = HistoryEntry(role: string, content: string)

  /** The request body: `message` may be absent; a missing `history` is the empty one. */
  datatype ChatRequest = ChatRequest(message: Option<string>, history: seq<HistoryEntry>)

  datatype ChatBody = Answer(response: string) | ErrorBody(error: string)

  datatype ChatResponse = ChatResponse(status: int, body: ChatBody)

  /** `User.find_by_username`: the user document with that username, none, or the exception it raised. */
  type UserLookup = JsonValue -> Result<Option<UserInfo>, string>

  const MessageRequired := "Message is required"

  /** The text of `KeyError('username')`. */
  const MissingUsername := "'username'"

  /** The exception the graph raises when it runs out of steps. */
  const RecursionLimitError := "Recursion limit reached without hitting a stop condition"

  /** The error text of a 500 answer (unlike the tools' own error text, without a final period). */
  function ServerError(e: string): string {
    "An internal error occurred: " + e
  }

  // ---------------------------------------------------------------- the history

  /** The history entries as messages: user entries as human messages, assistant entries as replies, the rest dropped. */
  function Convert(entries: seq<HistoryEntry>): (r: seq<Message>)
    ensures |r| <= |entries|
    ensures forall m | m in r :: m.HumanMessage? || (m.AIMessage? && m.toolCalls == [])
  {
    if entries == [] then []
    else
      var e := entries[|entries| - 1];
      var front := Convert(entries[..|entries| - 1]);
      if IsKept(e) then front + [ToMessage(e)] else front
  }

  /** The roles the history loop keeps. */
  predicate IsKept(e: HistoryEntry) {
    e.role == "user" || e.role == "assistant"
  }

  /** A kept entry as a message: a user entry as a human message, any other as a reply without tool calls. */
  function ToMessage(e: HistoryEntry): (m: Message)
    ensures e.role == "user" ==> m == HumanMessage(e.content)
    ensures e.role != "user" ==> m == AIMessage(e.content, [])
  {
    if e.role == "user" then HumanMessage(e.content) else AIMessage(e.content, [])
  }

  /**
   * Conversion keeps every user and assistant entry exactly once, in the history's order, and
   * drops the rest: there are as many messages as kept entries.
   */
  lemma {:induction false} ConvertKeepsOrder(entries: seq<HistoryEntry>)
    ensures FilterMaps(Convert(entries), entries, IsKept, ToMessage)
    decreases |entries|
  {
    if entries != [] {
      var n := |entries| - 1;
      ConvertKeepsOrder(entries[..n]);
      FilterMapsSnoc(Convert(entries[..n]), entries, IsKept, ToMessage);
    }
  }

  /** Where conversion starts: past a leading assistant entry, the greeting. */
  function StartIndex(history: seq<HistoryEntry>): (i: nat)
    ensures i <= 1 && i <= |history|
    ensures i == 1 <==> |history| > 0 && history[0].role == "assistant"
  {
    if |history| > 0 && history[0].role == "assistant" then 1 else 0
  }

  /** The transcript the graph starts from: the converted history, then the new message. */
  function Conversation(history: seq<HistoryEntry>, message: string): (c: seq<Message>)
    ensures |c| > 0 && c[|c| - 1] == HumanMessage(message)
    ensures c[..|c| - 1] == Convert(history[StartIndex(history)..])
  {
    Convert(history[StartIndex(history)..]) + [HumanMessage(message)]
  }

  /** Conversion works entry by entry: a split history converts to the two converted halves. */
  lemma {:induction false} ConvertAppend(a: seq<HistoryEntry>, b: seq<HistoryEntry>)
    ensures Convert(a + b) == Convert(a) + Convert(b)
    decreases |b|
  {
    if b != [] {
      var b' := b[..|b| - 1];
      assert (a + b)[..|a + b| - 1] == a + b';
      assert (a + b)[|a + b| - 1] == b[|b| - 1];
      ConvertAppend(a, b');
    } else {
      assert a + b == a;
    }
  }

  /** A message comes out of conversion exactly when an entry with its role and content went in. */
  lemma {:induction false} ConvertedMessages(entries: seq<HistoryEntry>, c: string)
    ensures HumanMessage(c) in Convert(entries) <==> HistoryEntry("user", c) in entries
    ensures AIMessage(c, []) in Convert(entries) <==> HistoryEntry("assistant", c) in entries
    decreases |entries|
  {
    if entries != [] {
      var front := entries[..|entries| - 1];
      var e := entries[|entries| - 1];
      assert entries == front + [e];
      ConvertedMessages(front, c);
    }
  }

  /**
   * The transcript holds the new message, every user entry of the history and every
   * assistant entry except a leading greeting, and nothing else.
   */
  lemma ConversationFromHistory(history: seq<HistoryEntry>, message: string, c: string)
    ensures HumanMessage(c) in Conversation(history, message) <==>
              c == message || HistoryEntry("user", c) in history
    ensures AIMessage(c, []) in Conversation(history, message) <==>
              HistoryEntry("assistant", c) in history[StartIndex(history)..]
  {
    var s := StartIndex(history);
    ConvertedMessages(history[s..], c);
    if s == 1 {
      assert history == [history[0]] + history[1..];
    } else {
      assert history[s..] == history;
    }
  }

  /** The browser's history already ends with the prompt it sends, so the transcript holds it twice. */
  lemma ResubmittedPromptAppearsTwice(history: seq<HistoryEntry>, message: string)
    requires |history| > 0 && history[|history| - 1] == HistoryEntry("user", message)
    ensures var c := Conversation(history, message);
            |c| >= 2 && c[|c| - 2] == HumanMessage(message) && c[|c| - 1] == HumanMessage(message)
  {
    var tail := history[StartIndex(history)..];
    assert tail[|tail| - 1] == history[|history| - 1];
  }

  /** The history loop of `handle_chat`, then the new message appended. */
  method BuildConversation(history: seq<HistoryEntry>, message: string) returns (messages: seq<Message>)
    ensures messages == Conversation(history, message)
  {
    var start := if |history| > 0 && history[0].role == "assistant" then 1 else 0;
    messages := [];
    var i := start;
    while i < |history|
      invariant start <= i <= |history|
      invariant messages == Convert(history[start..i])
    {
      assert history[start..i + 1][..i - start] == history[start..i];
      var entry := history[i];
      if entry.role == "user" {
        messages := messages + [HumanMessage(entry.content)];
      } else if entry.role == "assistant" {
        messages := messages + [AIMessage(entry.content, [])];
      }
      i := i + 1;
    }
    assert history[start..i] == history[start..];
    messages := messages + [HumanMessage(message)];
  }

  // ---------------------------------------------------------------- the identity given to the agent

  /** The `supervisor_id` of the looked-up user document, `None` when there is no document or no such field. */
  function SupervisorOf(found: Option<UserInfo>): JsonValue {
    if found.Some? && "supervisor_id" in found.value then found.value["supervisor_id"] else JNull
  }

  /** `user_info_for_agent`: the token's fields, with an employee's supervisor taken from the user directory. */
  function AgentUserInfo(user: UserInfo, lookup: UserLookup): (r: Result<UserInfo, string>)
    // the lookup runs only for an employee; it fails when the token has no username or the lookup raises
    ensures r.Failure? <==>
              HasRole(user, "employee") && ("username" !in user || lookup(user["username"]).Failure?)
    ensures r.Failure? && "username" !in user ==> r.error == MissingUsername
    ensures r.Success? ==> r.value.Keys == user.Keys + (if HasRole(user, "employee") then {"supervisor_id"} else {})
    // only `supervisor_id` can differ from the token
    ensures r.Success? ==> forall key | key in user && key != "supervisor_id" :: r.value[key] == user[key]
    ensures r.Success? && HasRole(user, "employee") ==>
              r.value["supervisor_id"] == SupervisorOf(lookup(user["username"]).value)
    ensures r.Success? && !HasRole(user, "employee") ==> r.value == user
  {
    if HasRole(user, "employee") then
      if "username" !in user then Failure(MissingUsername)
      else
        match lookup(user["username"])
        case Failure(e) => Failure(e)
        case Success(found) => Success(user["supervisor_id" := SupervisorOf(found)])
    else Success(user)
  }

  /**
   * The prompt sees the token's role and id; an employee's prompt carries the supervisor the
   * directory records for them (never one from the token), any other role's carries none.
   */
  lemma PromptSupervisor(user: UserInfo, lookup: UserLookup)
    requires AgentUserInfo(user, lookup).Success?
    ensures var ctx := DeriveContext(AgentUserInfo(user, lookup).value);
            && ctx.role == DeriveContext(user).role
            && ctx.employeeId == DeriveContext(user).employeeId
            && ctx.supervisorId ==
                 (if HasRole(user, "employee") then SupervisorOf(lookup(user["username"]).value) else JNull)
  {
    var info := AgentUserInfo(user, lookup).value;
    if "role" in user {
      assert info["role"] == user["role"];
    }
    if "user_id" in user {
      assert info["user_id"] == user["user_id"];
    }
    if HasRole(user, "employee") {
      assert HasRole(info, "employee");
    }
  }

  /** The `try` block's first step: copy the token's fields, then look up an employee's supervisor. */
  method PrepareUserInfo(user: UserInfo, lookup: UserLookup) returns (r: Result<UserInfo, string>)
    ensures r == AgentUserInfo(user, lookup)
  {
    var info := user;
    if HasRole(user, "employee") {
      if "username" !in user {
        return Failure(MissingUsername);
      }
      var found := lookup(user["username"]);
      if found.Failure? {
        return Failure(found.error);
      }
      info := info["supervisor_id" := SupervisorOf(found.value)];
    }
    r := Success(info);
  }

  // ---------------------------------------------------------------- handle_chat

  /** The response and the store once the request is handled. */
  datatype ChatOutcome = ChatOutcome(db: Db, response: ChatResponse)

  /** `handle_chat`: validate, build the transcript, run the graph, answer with its last message. */
  function Chat(db: Db, req: ChatRequest, user: UserInfo, lookup: UserLookup, gateway: Gateway, action: ActionNode,
                fuel: nat): (r: ChatOutcome)
    // an absent or empty message is refused before anything runs
    ensures req.message.None? || req.message == Some("") ==>
              r == ChatOutcome(db, ChatResponse(400, ErrorBody(MessageRequired)))
    ensures r.response.status == 400 ==> req.message.None? || req.message == Some("")
    // an answer comes only with 200; every failure inside the run is a 500 with the exception's text
    ensures r.response.body.Answer? <==> r.response.status == 200
    ensures r.response.status in {200, 400, 500}
    ensures r.response.status == 500 ==> exists e :: r.response.body == ErrorBody(ServerError(e))
    // a failed lookup happens before the graph runs: nothing is written
    ensures AgentUserInfo(user, lookup).Failure? ==> r.db == db
    // an employee's token without a username or a raising lookup is an exception inside the `try`: a 500
    ensures req.message.Some? && req.message.value != "" && AgentUserInfo(user, lookup).Failure? ==>
              r.response == ChatResponse(500, ErrorBody(ServerError(AgentUserInfo(user, lookup).error)))
  {
    if req.message.None? || req.message.value == "" then
      ChatOutcome(db, ChatResponse(400, ErrorBody(MessageRequired)))
    else
      var conversation := Conversation(req.history, req.message.value);
      match AgentUserInfo(user, lookup)
      case Failure(e) => ChatOutcome(db, ChatResponse(500, ErrorBody(ServerError(e))))
      case Success(info) =>
        var ctx := DeriveContext(info);
        var run := Run(db, conversation, ctx, gateway, action, 0, fuel);
        RunExtends(db, conversation, ctx, gateway, action, 0, fuel);
        ChatOutcome(run.db, Respond(run.outcome, run.messages))
  }

  /** What `handle_chat` answers once the graph has run: its last message, or the exception's text. */
  function Respond(outcome: RunOutcome, transcript: seq<Message>): (resp: ChatResponse)
    requires outcome == Finished ==> |transcript| > 0 && transcript[|transcript| - 1].AIMessage?
    ensures resp.status in {200, 500}
    ensures resp.status == 200 <==> outcome == Finished
    ensures outcome == Finished ==> resp.body == Answer(transcript[|transcript| - 1].content)
    ensures outcome.GatewayFailed? ==> resp.body == ErrorBody(ServerError(outcome.error))
    ensures outcome == OutOfFuel ==> resp.body == ErrorBody(ServerError(RecursionLimitError))
  {
    match outcome
    case GatewayFailed(e) => ChatResponse(500, ErrorBody(ServerError(e)))
    case OutOfFuel => ChatResponse(500, ErrorBody(ServerError(RecursionLimitError)))
    case Finished => ChatResponse(200, Answer(transcript[|transcript| - 1].content))
  }

  /** A request that passes validation and the lookup is answered from the graph's run. */
  lemma ChatRunsGraph(db: Db, req: ChatRequest, user: UserInfo, lookup: UserLookup, gateway: Gateway,
                      action: ActionNode, fuel: nat, info: UserInfo)
    requires req.message.Some? && req.message.value != "" && AgentUserInfo(user, lookup) == Success(info)
    ensures var run := Run(db, Conversation(req.history, req.message.value), DeriveContext(info), gateway, action, 0, fuel);
            && (run.outcome == Finished ==> |run.messages| > 0 && run.messages[|run.messages| - 1].AIMessage?)
            && Chat(db, req, user, lookup, gateway, action, fuel) == ChatOutcome(run.db, Respond(run.outcome, run.messages))
  {
    RunExtends(db, Conversation(req.history, req.message.value), DeriveContext(info), gateway, action, 0, fuel);
  }

  /**
   * A 200 answer is the final reply of a finished run, a reply that asks for no tool; before it the
   * run appended only whole rounds (a reply asking for tools and one tool message per call) to the
   * transcript built from the request.
   */
  lemma AnswerIsFinalReply(db: Db, req: ChatRequest, user: UserInfo, lookup: UserLookup, gateway: Gateway,
                           action: ActionNode, fuel: nat)
    requires AnswersEachCall(action)
    requires Chat(db, req, user, lookup, gateway, action, fuel).response.status == 200
    ensures req.message.Some? && AgentUserInfo(user, lookup).Success?
    ensures var r := Chat(db, req, user, lookup, gateway, action, fuel);
            var conversation := Conversation(req.history, req.message.value);
            var run := Run(db, conversation, DeriveContext(AgentUserInfo(user, lookup).value), gateway, action, 0, fuel);
            && run.outcome == Finished && r.db == run.db
            && conversation < run.messages
            && run.messages[|run.messages| - 1] == AIMessage(r.response.body.response, [])
            && RoundsIn(run.messages, |conversation|, |run.messages| - 1)
  {
    var conversation := Conversation(req.history, req.message.value);
    var ctx := DeriveContext(AgentUserInfo(user, lookup).value);
    RunExtends(db, conversation, ctx, gateway, action, 0, fuel);
    RunAppendsRounds(db, conversation, ctx, gateway, action, 0, fuel);
  }

  /** `handle_chat` against the leave tools, the collection updated in place. */
  method HandleChat(store: LeaveRequestStore, req: ChatRequest, user: UserInfo, lookup: UserLookup,
                    gateway: Gateway, parse: DateParser, env: Environment, fuel: nat, ghost step: Step)
    returns (response: ChatResponse)
    requires store.Valid() && RunsLeaveTools(step, parse)
    modifies store
    ensures store.Valid()
    ensures ChatOutcome(store.Value(), response) ==
            Chat(old(store.Value()), req, user, lookup, gateway, ToolNode(step, env), fuel)
  {
    if req.message.None? || req.message.value == "" {
      return ChatResponse(400, ErrorBody(MessageRequired));
    }
    var messages := BuildConversation(req.history, req.message.value);
    var prepared := PrepareUserInfo(user, lookup);
    if prepared.Failure? {
      return ChatResponse(500, ErrorBody(ServerError(prepared.error)));
    }
    var info := prepared.value;
    var transcript, outcome := RunGraph(store, messages, info, gateway, parse, env, fuel, step);
    ChatRunsGraph(old(store.Value()), req, user, lookup, gateway, ToolNode(step, env), fuel, info);
    match outcome
    case GatewayFailed(e) =>
      response := ChatResponse(500, ErrorBody(ServerError(e)));
    case OutOfFuel =>
      response := ChatResponse(500, ErrorBody(ServerError(RecursionLimitError)));
    case Finished =>
      response := ChatResponse(200, Answer(transcript[|transcript| - 1].content));
  }
}
