/**
 * The agent: a two-node graph that alternates between consulting the language model
 * ("agent") and running the tool calls it asked for ("action"), growing one transcript.
 *
 * The language model is a `Gateway`, a function from the prompt context and the
 * transcript to a reply (text plus a possibly empty batch of tool calls) or an
 * exception. Each tool call's database answers and clock come from an `Environment`
 * indexed by the call's position in the whole run. The graph's only bound is LangGraph's
 * recursion limit on super-steps; `fuel` counts agent rounds and stands in for it.
 */
module AgentGraph {
  import opened Wrappers
  import opened LeaveTools

  /** One tool call the language model requested: a name, its arguments and a correlation id. */
  datatype ToolCall = ToolCall(name: string, args: Args, id: string)

  datatype Message =
    | HumanMessage(content: string)
    | AIMessage(content: string, toolCalls: seq<ToolCall>)
    | ToolMessage(output: ToolOutput, toolCallId: string)

  /** A JSON value as it appears in the token payload and the user record. */
  datatype JsonValue = JStr(str: string) | JInt(number: int) | JNull

  type UserInfo = map<string, JsonValue>

  /** The values substituted into the system prompt. */
  datatype PromptContext = PromptContext(role: JsonValue, employeeId: JsonValue, supervisorId: JsonValue)

  datatype GatewayReply = Reply(content: string, toolCalls: seq<ToolCall>) | GatewayError(error: string)

  type Gateway = (PromptContext, seq<Message>) -> GatewayReply

  /** The clock and database answers of the n-th tool call of a run. */
  type Environment = nat -> Effects

  // ---------------------------------------------------------------- tool_map

  /** `tool_map`: each of the five tools under its registered name, and nothing else. */
  function ToolMap(): (m: map<string, Tool>)
    ensures forall t :: Name(t) in m && m[Name(t)] == t
    ensures forall n :: n in m ==> Name(m[n]) == n
  {
    map[Name(CreateLeaveRequestTool) := CreateLeaveRequestTool,
        Name(GetMyLeaveRequestsTool) := GetMyLeaveRequestsTool,
        Name(GetPendingSupervisorRequestsTool) := GetPendingSupervisorRequestsTool,
        Name(GetPendingHrRequestsTool) := GetPendingHrRequestsTool,
        Name(ApproveOrRejectRequestTool) := ApproveOrRejectRequestTool]
  }

  // ---------------------------------------------------------------- call_model's context

  predicate HasRole(info: UserInfo, role: string) {
    "role" in info && info["role"] == JStr(role)
  }

  /** The prompt context `call_model` derives from `user_info`. */
  function DeriveContext(info: UserInfo): (c: PromptContext)
    ensures "role" in info ==> c.role == info["role"]
    ensures "role" !in info ==> c.role == JStr("unknown")
    ensures "user_id" in info ==> c.employeeId == info["user_id"]
    ensures "user_id" !in info ==> c.employeeId == JNull
    // a supervisor id reaches the prompt only for an employee
    ensures c.supervisorId != JNull ==> HasRole(info, "employee") && "supervisor_id" in info
    ensures HasRole(info, "employee") && "supervisor_id" in info ==> c.supervisorId == info["supervisor_id"]
  {
    var role := if "role" in info then info["role"] else JStr("unknown");
    var employeeId := if "user_id" in info then info["user_id"] else JNull;
    var supervisorId :=
      if role == JStr("employee") then (if "supervisor_id" in info then info["supervisor_id"] else JNull)
      else JNull;
    PromptContext(role, employeeId, supervisorId)
  }

  // ---------------------------------------------------------------- should_continue

  datatype Route = Continue | End

  /** `should_continue`: end when the model's last reply asked for no tool. */
  function ShouldContinue(messages: seq<Message>): (r: Route)
    requires |messages| > 0 && messages[|messages| - 1].AIMessage?
    ensures r == End <==> messages[|messages| - 1].toolCalls == []
  {
    if messages[|messages| - 1].toolCalls == [] then End else Continue
  }

  // ---------------------------------------------------------------- call_tool

  function NotFoundError(name: string): string {
    "Error: Tool '" + name + "' not found."
  }

  function ToolError(e: string): string {
    "Error: " + e
  }

  /** What one tool call did: the store afterwards and the output its tool message carries. */
  datatype Dispatched = Dispatched(db: Db, output: ToolOutput)

  /** One iteration of `call_tool`'s loop: look the name up, invoke the tool, turn an exception into text. */
  function Dispatch(db: Db, call: ToolCall, parse: DateParser, fx: Effects): (r: Dispatched)
    // an unknown name invokes nothing
    ensures call.name !in ToolMap() ==> r == Dispatched(db, Text(NotFoundError(call.name)))
    // a tool that raises becomes an error text, and its store is kept
    ensures call.name in ToolMap() ==>
              var inv := InvokeTool(db, ToolMap()[call.name], call.args, parse, fx);
              && (inv.outcome.Failure? ==> r.output == Text(ToolError(inv.outcome.error)))
              && (inv.outcome.Success? ==> r.output == inv.outcome.value)
              && r.db == inv.db
  {
    if call.name in ToolMap() then
      var inv := InvokeTool(db, ToolMap()[call.name], call.args, parse, fx);
      match inv.outcome
      case Success(o) => Dispatched(inv.db, o)
      case Failure(e) => Dispatched(inv.db, Text(ToolError(e)))
    else
      Dispatched(db, Text(NotFoundError(call.name)))
  }

  /** The per-call work of the tool node, as the graph sees it. */
  type Step = (Db, ToolCall, Effects) -> Dispatched

  /** The tool node of this system: the five leave tools, with `parse` as their date parser. */
  function ToolStep(parse: DateParser): Step {
    (db: Db, call: ToolCall, fx: Effects) => Dispatch(db, call, parse, fx)
  }

  /** Only a call naming one of the two writing tools can change the store. */
  ghost predicate OnlyWritersWrite(step: Step) {
    forall db: Db, call: ToolCall, fx: Effects ::
      call.name != Name(CreateLeaveRequestTool) && call.name != Name(ApproveOrRejectRequestTool) ==>
        step(db, call, fx).db == db
  }

  /** No call can make two documents share an id or hand out a used id. */
  ghost predicate KeepsValid(step: Step) {
    forall db: Db, call: ToolCall, fx: Effects :: db.Valid() ==> step(db, call, fx).db.Valid()
  }

  /**
   * `step` is this system's per-call tool work: on every call it does what `Dispatch` does with
   * the leave tools. (The trigger keeps the leave tools out of proofs that never dispatch a call.)
   */
  ghost predicate RunsLeaveTools(step: Step, parse: DateParser) {
    forall db: Db, call: ToolCall, fx: Effects {:trigger Dispatch(db, call, parse, fx)} ::
      step(db, call, fx) == Dispatch(db, call, parse, fx)
  }

  lemma ToolStepRunsLeaveTools(parse: DateParser)
    ensures RunsLeaveTools(ToolStep(parse), parse)
  {
  }

  /** The leave tools write only through create and approve. */
  lemma ToolStepOnlyWritersWrite(parse: DateParser)
    ensures OnlyWritersWrite(ToolStep(parse))
  {
    forall db: Db, call: ToolCall, fx: Effects
      | call.name != Name(CreateLeaveRequestTool) && call.name != Name(ApproveOrRejectRequestTool)
      ensures ToolStep(parse)(db, call, fx).db == db
    {
      if call.name in ToolMap() {
        var tool := ToolMap()[call.name];
        assert tool != CreateLeaveRequestTool && tool != ApproveOrRejectRequestTool;
        InvokeToolWrites(db, tool, call.args, parse, fx);
      }
    }
  }

  /** No leave tool call breaks the store's id invariant. */
  lemma ToolStepKeepsValid(parse: DateParser)
    ensures KeepsValid(ToolStep(parse))
  {
    forall db: Db, call: ToolCall, fx: Effects | db.Valid() ensures ToolStep(parse)(db, call, fx).db.Valid() {
      if call.name in ToolMap() {
        InvokeToolKeepsValid(db, ToolMap()[call.name], call.args, parse, fx);
      }
    }
  }

  datatype Batch = Batch(db: Db, messages: seq<Message>)

  /** `call_tool` on a batch: the calls in order, each answered by a tool message carrying its id. */
  function DispatchAll(db: Db, calls: seq<ToolCall>, step: Step, env: Environment, k: nat): (r: Batch)
    ensures |r.messages| == |calls|
    ensures forall i :: 0 <= i < |calls| ==> r.messages[i].ToolMessage? && r.messages[i].toolCallId == calls[i].id
    decreases |calls|
  {
    if calls == [] then Batch(db, [])
    else
      var before := DispatchAll(db, calls[..|calls| - 1], step, env, k);
      var call := calls[|calls| - 1];
      var d := step(before.db, call, env(k + |calls| - 1));
      Batch(d.db, before.messages + [ToolMessage(d.output, call.id)])
  }

  /** Every call of a batch is answered by its own step, run on the store the calls before it left. */
  lemma {:induction false} DispatchAllAt(db: Db, calls: seq<ToolCall>, step: Step, env: Environment, k: nat, i: nat)
    requires i < |calls|
    ensures DispatchAll(db, calls, step, env, k).messages[i] ==
            ToolMessage(step(DispatchAll(db, calls[..i], step, env, k).db, calls[i], env(k + i)).output, calls[i].id)
    decreases |calls|
  {
    var n := |calls| - 1;
    if i < n {
      DispatchAllAt(db, calls[..n], step, env, k, i);
      assert calls[..n][..i] == calls[..i];
    } else {
      assert calls[..n] == calls[..i];
    }
  }

  /** Dispatching one more call extends the batch by that call's own step. */
  lemma DispatchAllSnoc(db: Db, calls: seq<ToolCall>, step: Step, env: Environment, k: nat, i: nat)
    requires i < |calls|
    ensures var before := DispatchAll(db, calls[..i], step, env, k);
            var d := step(before.db, calls[i], env(k + i));
            DispatchAll(db, calls[..i + 1], step, env, k) ==
              Batch(d.db, before.messages + [ToolMessage(d.output, calls[i].id)])
  {
    assert calls[..i + 1][..i] == calls[..i];
  }

  /** A batch that calls neither writing tool by name leaves the store as it was. */
  lemma {:induction false} ReadOnlyBatch(db: Db, calls: seq<ToolCall>, step: Step, env: Environment, k: nat)
    requires OnlyWritersWrite(step)
    requires forall i :: 0 <= i < |calls| ==>
               calls[i].name != Name(CreateLeaveRequestTool) && calls[i].name != Name(ApproveOrRejectRequestTool)
    ensures DispatchAll(db, calls, step, env, k).db == db
    decreases |calls|
  {
    if calls != [] {
      ReadOnlyBatch(db, calls[..|calls| - 1], step, env, k);
      assert step(db, calls[|calls| - 1], env(k + |calls| - 1)).db == db;
    }
  }

  /** Dispatching a batch keeps ids distinct and the counter fresh. */
  lemma {:induction false} DispatchAllKeepsValid(db: Db, calls: seq<ToolCall>, step: Step, env: Environment, k: nat)
    requires KeepsValid(step) && db.Valid()
    ensures DispatchAll(db, calls, step, env, k).db.Valid()
    decreases |calls|
  {
    if calls != [] {
      var before := DispatchAll(db, calls[..|calls| - 1], step, env, k);
      DispatchAllKeepsValid(db, calls[..|calls| - 1], step, env, k);
      assert step(before.db, calls[|calls| - 1], env(k + |calls| - 1)).db.Valid();
    }
  }

  // ---------------------------------------------------------------- the graph

  datatype RunOutcome = Finished | GatewayFailed(error: string) | OutOfFuel

  /** The store, the transcript and how the run ended; `calls` counts the tool calls made so far. */
  datatype RunResult = RunResult(db: Db, messages: seq<Message>, outcome: RunOutcome, calls: nat)

  /** The "action" node: the store and tool messages a batch of tool calls leaves, the k-th call of the run being the first. */
  type ActionNode = (Db, seq<ToolCall>, nat) -> Batch

  /** `call_tool` as the action node: `step` on each call in turn, the n-th call of a run drawing `env(n)`. */
  function ToolNode(step: Step, env: Environment): ActionNode {
    (db: Db, calls: seq<ToolCall>, k: nat) => DispatchAll(db, calls, step, env, k)
  }

  /** `action` runs `step` over each call in turn (the trigger keeps a batch folded until one is named). */
  ghost predicate DispatchesEach(action: ActionNode, step: Step, env: Environment) {
    forall db: Db, calls: seq<ToolCall>, k: nat {:trigger DispatchAll(db, calls, step, env, k)} ::
      action(db, calls, k) == DispatchAll(db, calls, step, env, k)
  }

  lemma ToolNodeDispatchesEach(step: Step, env: Environment)
    ensures DispatchesEach(ToolNode(step, env), step, env)
  {
  }

  /** An action node that answers every call with a tool message carrying its id, in the calls' order. */
  ghost predicate AnswersEachCall(action: ActionNode) {
    forall db: Db, calls: seq<ToolCall>, k: nat :: ToolReplies(action(db, calls, k).messages, calls)
  }

  /** The tool messages of one action step: one per call, in the calls' order, carrying each call's id. */
  ghost predicate ToolReplies(outputs: seq<Message>, calls: seq<ToolCall>) {
    && |outputs| == |calls|
    && forall i :: 0 <= i < |outputs| ==> outputs[i].ToolMessage? && outputs[i].toolCallId == calls[i].id
  }

  lemma ToolNodeAnswersEachCall(step: Step, env: Environment)
    ensures AnswersEachCall(ToolNode(step, env))
  {
  }

  /** The graph from its entry point "agent": agent, then action and agent again while tools are requested. */
  function Run(db: Db, messages: seq<Message>, ctx: PromptContext, gateway: Gateway, action: ActionNode,
               k: nat, fuel: nat): RunResult
    decreases fuel
  {
    if fuel == 0 then RunResult(db, messages, OutOfFuel, k)
    else
      match gateway(ctx, messages)
      case GatewayError(e) => RunResult(db, messages, GatewayFailed(e), k)
      case Reply(content, calls) =>
        var m := messages + [AIMessage(content, calls)];
        if ShouldContinue(m) == End then RunResult(db, m, Finished, k)
        else
          var b := action(db, calls, k);
          Run(b.db, m + b.messages, ctx, gateway, action, k + |calls|, fuel - 1)
  }

  /** One round of the graph: the model's reply is appended and, if it asks for tools, their answers too. */
  lemma RunStep(db: Db, messages: seq<Message>, ctx: PromptContext, gateway: Gateway, action: ActionNode,
                k: nat, fuel: nat)
    requires fuel > 0 && gateway(ctx, messages).Reply?
    ensures var reply := gateway(ctx, messages);
            var m := messages + [AIMessage(reply.content, reply.toolCalls)];
            var b := action(db, reply.toolCalls, k);
            Run(db, messages, ctx, gateway, action, k, fuel) ==
              if reply.toolCalls == [] then RunResult(db, m, Finished, k)
              else Run(b.db, m + b.messages, ctx, gateway, action, k + |reply.toolCalls|, fuel - 1)
  {
  }

  /** A round whose action node left `out` moves the run on to the next round. */
  lemma RoundAdvances(db: Db, messages: seq<Message>, ctx: PromptContext, gateway: Gateway, action: ActionNode,
                      k: nat, fuel: nat, out: Batch)
    requires fuel > 0 && gateway(ctx, messages).Reply? && gateway(ctx, messages).toolCalls != []
    requires out == action(db, gateway(ctx, messages).toolCalls, k)
    ensures var reply := gateway(ctx, messages);
            Run(db, messages, ctx, gateway, action, k, fuel) ==
              Run(out.db, messages + [AIMessage(reply.content, reply.toolCalls)] + out.messages, ctx, gateway, action,
                  k + |reply.toolCalls|, fuel - 1)
  {
  }

  /**
   * Whole rounds between positions `lo` and `hi` of a transcript: a reply asking for tools,
   * followed by exactly one tool message per call, in the calls' order and carrying their ids,
   * and so on.
   */
  ghost predicate RoundsIn(s: seq<Message>, lo: nat, hi: nat)
    requires lo <= hi <= |s|
    decreases hi - lo
  {
    lo == hi ||
    (&& s[lo].AIMessage? && s[lo].toolCalls != [] && lo + |s[lo].toolCalls| < hi
     && (forall j :: 0 <= j < |s[lo].toolCalls| ==>
           s[lo + 1 + j].ToolMessage? && s[lo + 1 + j].toolCallId == s[lo].toolCalls[j].id)
     && RoundsIn(s, lo + |s[lo].toolCalls| + 1, hi))
  }

  /** The transcript is only ever extended, and a finished run ends with a reply that asks for no tool. */
  lemma {:induction false} RunExtends(db: Db, messages: seq<Message>, ctx: PromptContext, gateway: Gateway, action: ActionNode,
                                      k: nat, fuel: nat)
    ensures var r := Run(db, messages, ctx, gateway, action, k, fuel);
            && messages <= r.messages
            && (r.outcome == Finished ==>
                  |r.messages| > |messages| && r.messages[|r.messages| - 1].AIMessage? &&
                  r.messages[|r.messages| - 1].toolCalls == [])
    decreases fuel
  {
    if fuel > 0 && gateway(ctx, messages).Reply? {
      var reply := gateway(ctx, messages);
      var m := messages + [AIMessage(reply.content, reply.toolCalls)];
      if reply.toolCalls != [] {
        var b := action(db, reply.toolCalls, k);
        RunExtends(b.db, m + b.messages, ctx, gateway, action, k + |reply.toolCalls|, fuel - 1);
        PrefixTransitive(messages, m + b.messages, Run(db, messages, ctx, gateway, action, k, fuel).messages);
      }
    }
  }

  /** What a run appends is whole rounds, then (when it finishes) the final reply. */
  lemma {:induction false} RunAppendsRounds(db: Db, messages: seq<Message>, ctx: PromptContext, gateway: Gateway,
                                            action: ActionNode, k: nat, fuel: nat)
    requires AnswersEachCall(action)
    ensures var r := Run(db, messages, ctx, gateway, action, k, fuel);
            && |messages| <= |r.messages|
            && (r.outcome == Finished ==> |messages| < |r.messages| && RoundsIn(r.messages, |messages|, |r.messages| - 1))
            && (r.outcome != Finished ==> RoundsIn(r.messages, |messages|, |r.messages|))
    decreases fuel
  {
    var r := Run(db, messages, ctx, gateway, action, k, fuel);
    RunExtends(db, messages, ctx, gateway, action, k, fuel);
    if fuel > 0 && gateway(ctx, messages).Reply? {
      var reply := gateway(ctx, messages);
      RunStep(db, messages, ctx, gateway, action, k, fuel);
      if reply.toolCalls != [] {
        var b := action(db, reply.toolCalls, k);
        var m' := messages + [AIMessage(reply.content, reply.toolCalls)] + b.messages;
        var r' := Run(b.db, m', ctx, gateway, action, k + |reply.toolCalls|, fuel - 1);
        RunExtends(b.db, m', ctx, gateway, action, k + |reply.toolCalls|, fuel - 1);
        RunAppendsRounds(b.db, m', ctx, gateway, action, k + |reply.toolCalls|, fuel - 1);
        var end := if r'.outcome == Finished then |r'.messages| - 1 else |r'.messages|;
        RoundPrepended(messages, AIMessage(reply.content, reply.toolCalls), b.messages, r'.messages, end);
        assert r == r';
      }
    }
  }

  /** A round in front of whole rounds is whole rounds. */
  lemma RoundPrepended(before: seq<Message>, ai: Message, replies: seq<Message>, s: seq<Message>, end: nat)
    requires ai.AIMessage? && ai.toolCalls != [] && ToolReplies(replies, ai.toolCalls)
    requires before + [ai] + replies <= s
    requires |before + [ai] + replies| <= end <= |s| && RoundsIn(s, |before + [ai] + replies|, end)
    ensures RoundsIn(s, |before|, end)
  {
    var m := before + [ai] + replies;
    assert s[|before|] == m[|before|] == ai;
    forall j | 0 <= j < |replies| ensures s[|before| + 1 + j] == replies[j] {
      assert s[|before| + 1 + j] == m[|before| + 1 + j];
    }
  }

  lemma PrefixTransitive<T>(a: seq<T>, b: seq<T>, c: seq<T>)
    requires a <= b && b <= c
    ensures a <= c
  {
  }

  /** One iteration of `call_tool`'s loop, run against the store. */
  method DispatchCall(store: LeaveRequestStore, call: ToolCall, parse: DateParser, fx: Effects, ghost step: Step)
    returns (output: ToolOutput)
    requires store.Valid() && RunsLeaveTools(step, parse)
    modifies store
    ensures store.Valid()
    ensures Dispatched(store.Value(), output) == step(old(store.Value()), call, fx)
  {
    assert step(store.Value(), call, fx) == Dispatch(store.Value(), call, parse, fx);
    if call.name in ToolMap() {
      var r := store.Invoke(ToolMap()[call.name], call.args, parse, fx);
      output := if r.Success? then r.value else Text(ToolError(r.error));
    } else {
      output := Text(NotFoundError(call.name));
    }
  }

  /** `call_tool`: one tool message per tool call of the last message, appended in order. */
  method CallTool(store: LeaveRequestStore, messages: seq<Message>, parse: DateParser, env: Environment, k: nat,
                  ghost step: Step, ghost action: ActionNode)
    returns (outputs: seq<Message>)
    requires |messages| > 0 && messages[|messages| - 1].AIMessage?
    requires store.Valid() && RunsLeaveTools(step, parse) && DispatchesEach(action, step, env)
    modifies store
    ensures store.Valid()
    ensures Batch(store.Value(), outputs) == action(old(store.Value()), messages[|messages| - 1].toolCalls, k)
  {
    var calls := messages[|messages| - 1].toolCalls;
    outputs := [];
    var i := 0;
    while i < |calls|
      invariant 0 <= i <= |calls|
      invariant store.Valid()
      invariant Batch(store.Value(), outputs) == DispatchAll(old(store.Value()), calls[..i], step, env, k)
    {
      DispatchAllSnoc(old(store.Value()), calls, step, env, k, i);
      var output := DispatchCall(store, calls[i], parse, env(k + i), step);
      outputs := outputs + [ToolMessage(output, calls[i].id)];
      i := i + 1;
    }
    assert calls[..i] == calls;
  }

  /**
   * One round of the graph: node "agent" asks the gateway for a reply and appends it; if the reply
   * requests tools, node "action" answers them. `stop` says how the run ended when it ended here.
   */
  method AgentRound(store: LeaveRequestStore, transcript: seq<Message>, ctx: PromptContext, gateway: Gateway,
                    parse: DateParser, env: Environment, k: nat, fuel: nat, ghost step: Step, ghost action: ActionNode)
    returns (next: seq<Message>, k': nat, stop: Option<RunOutcome>)
    requires fuel > 0
    requires store.Valid() && RunsLeaveTools(step, parse) && DispatchesEach(action, step, env)
    modifies store
    ensures store.Valid()
    ensures stop.Some? ==>
              Run(old(store.Value()), transcript, ctx, gateway, action, k, fuel) ==
              RunResult(store.Value(), next, stop.value, k')
    ensures stop.None? ==>
              Run(old(store.Value()), transcript, ctx, gateway, action, k, fuel) ==
              Run(store.Value(), next, ctx, gateway, action, k', fuel - 1)
  {
    // node "agent"
    var reply := gateway(ctx, transcript);
    if reply.GatewayError? {
      return transcript, k, Some(GatewayFailed(reply.error));
    }
    RunStep(store.Value(), transcript, ctx, gateway, action, k, fuel);
    ghost var before := store.Value();
    next := transcript + [AIMessage(reply.content, reply.toolCalls)];
    if ShouldContinue(next) == End {
      return next, k, Some(Finished);
    }
    // node "action"
    var outputs := CallTool(store, next, parse, env, k, step, action);
    RoundAdvances(before, transcript, ctx, gateway, action, k, fuel, Batch(store.Value(), outputs));
    next, k', stop := next + outputs, k + |reply.toolCalls|, None;
  }

  /** `agent_graph.invoke`: run the graph on a transcript until the model stops asking for tools. */
  method RunGraph(store: LeaveRequestStore, messages: seq<Message>, info: UserInfo, gateway: Gateway,
                  parse: DateParser, env: Environment, fuel: nat, ghost step: Step)
    returns (transcript: seq<Message>, outcome: RunOutcome)
    requires store.Valid() && RunsLeaveTools(step, parse)
    modifies store
    ensures store.Valid()
    ensures var r := Run(old(store.Value()), messages, DeriveContext(info), gateway, ToolNode(step, env), 0, fuel);
            store.Value() == r.db && transcript == r.messages && outcome == r.outcome
  {
    var ctx := DeriveContext(info);
    ToolNodeDispatchesEach(step, env);
    ghost var spec := Run(store.Value(), messages, ctx, gateway, ToolNode(step, env), 0, fuel);
    transcript := messages;
    var k: nat, f: nat := 0, fuel;
    while f > 0
      invariant store.Valid()
      invariant Run(store.Value(), transcript, ctx, gateway, ToolNode(step, env), k, f) == spec
      decreases f
    {
      var stop;
      transcript, k, stop := AgentRound(store, transcript, ctx, gateway, parse, env, k, f, step, ToolNode(step, env));
      if stop.Some? {
        return transcript, stop.value;
      }
      f := f - 1;
    }
    outcome := OutOfFuel;
  }
}
