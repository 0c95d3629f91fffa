/** `AgentLoop._run_agent_loop` (nanobot/agent/loop.py): the bounded
    call-and-dispatch cycle. The provider is a function of the message list
    and the tool schemas it is shown; the loop sees the tool registry only
    through its definitions and its `execute`. */
module AgentLoop {
  import opened Common
  import opened Registry
  import opened Context
  import opened Think

  datatype ToolCall = ToolCall(id: string, name: string, arguments: Params)

  /** What one `provider.chat` call returns. */
  datatype Response = Response(content: Option<string>, toolCalls: seq<ToolCall>, reasoning: Option<string>)

  /** `response.has_tool_calls`. */
  predicate HasToolCalls(resp: Response) {
    |resp.toolCalls| > 0
  }

  /** The provider, seen as answering the message list and schema list it
      receives. */
  type Chat = (seq<Message>, seq<string>) -> Response

  /** Progress and final-answer markers; their exact text does not matter to
      any property below. */
  const IterationMarker: string := "\U{231B}\U{FE0F}迭代轮次: "
  const FinalMarker: string := "\U{2705}最终迭代轮次: "
  const ReasoningMarker: string := "\U{1F4AD}"
  const ToolMarker: string := "\U{2699}\U{FE0F}"

  function Max(a: int, b: int): int { if a >= b then a else b }

  /** The `tool_call_dicts` list, one per call, in call order. */
  function ToolCallDicts(calls: seq<ToolCall>): (r: seq<ToolCallDict>)
    ensures |r| == |calls|
    ensures forall j :: 0 <= j < |calls| ==>
      r[j].id == calls[j].id && r[j].name == calls[j].name && r[j].arguments == calls[j].arguments
  {
    seq(|calls|, j requires 0 <= j < |calls| => ToolCallDict(calls[j].id, calls[j].name, calls[j].arguments))
  }

  /** The loop's view of the tool registry: the schema list it sends with
      every provider call, and the text `execute` answers for a call. */
  datatype Tools = Tools(definitions: seq<string>, execute: ToolCall -> string)

  /** The view of a concrete registry. */
  function RegistryTools(reg: ToolTable): (t: Tools)
    ensures t.definitions == Definitions(reg)
    ensures forall c :: t.execute(c) == Execute(reg, c.name, c.arguments).result
  {
    Tools(Definitions(reg), (c: ToolCall) => Execute(reg, c.name, c.arguments).result)
  }

  /** The answer to one call with every line break removed. */
  function ToolText(tools: Tools, call: ToolCall): string {
    RemoveChar(tools.execute(call), '\n')
  }

  /** The progress preview of a tool result: cut to 50 characters plus `...`
      when longer than 200. */
  function Preview(result: string): (r: string)
    ensures |result| <= 200 ==> r == result
    ensures |result| > 200 ==> |r| == 53 && StartsWith(result, r[..50]) && r[50..] == "..."
  {
    if |result| > 200 then result[..50] + "..." else result
  }

  /** The tool messages of one iteration: one per call, in call order, each
      tied to its call's id. */
  function ToolMessages(tools: Tools, calls: seq<ToolCall>): (r: seq<Message>)
    ensures |r| == |calls|
  {
    if calls == [] then []
    else [ToolMessage(calls[0].id, calls[0].name, ToolText(tools, calls[0]))] + ToolMessages(tools, calls[1..])
  }

  /** The tool message of the `j`-th call answers that call: it carries the
      call's id and name and the registry's text without line breaks. */
  lemma {:induction false} ToolMessagesInOrder(tools: Tools, calls: seq<ToolCall>)
    ensures forall j :: 0 <= j < |calls| ==>
      var m := ToolMessages(tools, calls)[j];
      && m.ToolMessage? && m.toolCallId == calls[j].id && m.toolName == calls[j].name
      && m.result == RemoveChar(tools.execute(calls[j]), '\n') && '\n' !in m.result
  {
    if calls != [] {
      ToolMessagesInOrder(tools, calls[1..]);
      RemoveCharRemoves(tools.execute(calls[0]), '\n');
    }
  }

  function CallNames(calls: seq<ToolCall>): (r: seq<string>)
    ensures |r| == |calls|
  {
    if calls == [] then [] else [calls[0].name] + CallNames(calls[1..])
  }

  /** The names recorded for an iteration are the call names, in call order. */
  lemma {:induction false} CallNamesInOrder(calls: seq<ToolCall>)
    ensures forall j :: 0 <= j < |calls| ==> CallNames(calls)[j] == calls[j].name
  {
    if calls != [] {
      CallNamesInOrder(calls[1..]);
    }
  }

  /** One progress line per call: the tool name and a preview of its result. */
  function CallLines(tools: Tools, calls: seq<ToolCall>): (r: seq<string>)
    ensures |r| == |calls|
  {
    if calls == [] then []
    else [ToolMarker + calls[0].name + " - " + Preview(ToolText(tools, calls[0]))] + CallLines(tools, calls[1..])
  }

  /** The first progress segments of an iteration: the iteration marker, the
      reasoning (line breaks removed) when non-empty, the visible content
      after `<think>` stripping when any is left. */
  function HeaderLines(resp: Response, iteration: nat): seq<string> {
    var clean := StripThink(resp.content);
    [IterationMarker + NatToString(iteration)]
    + (if resp.reasoning.Some? && resp.reasoning.value != ""
       then [ReasoningMarker + RemoveChar(resp.reasoning.value, '\n')] else [])
    + (if clean.Some? && clean.value != "" then [clean.value] else [])
  }

  /** The messages one tool-call iteration appends: one assistant message
      carrying the calls, then the tool messages. */
  function Block(tools: Tools, resp: Response): seq<Message> {
    [AssistantMessage(resp.content, Some(ToolCallDicts(resp.toolCalls)), resp.reasoning)]
    + ToolMessages(tools, resp.toolCalls)
  }

  /** The notification one tool-call iteration sends. */
  function ProgressText(tools: Tools, resp: Response, iteration: nat): string {
    Join(HeaderLines(resp, iteration) + CallLines(tools, resp.toolCalls), "\n\n")
  }

  /** The inner `for tool_call in response.tool_calls` loop, as it grows
      the message list: each call is executed in order and its result
      appended with `add_tool_result`. */
  function DispatchCalls(tools: Tools, calls: seq<ToolCall>, messages: seq<Message>): (r: seq<Message>)
    ensures r == messages + ToolMessages(tools, calls)
    decreases |calls|
  {
    if calls == [] then messages
    else
      var c := calls[0];
      DispatchCalls(tools, calls[1..], AddToolResult(messages, c.id, c.name, ToolText(tools, c)))
  }

  /** The tool-call branch of one iteration as it grows the message list
      (`add_assistant_message`, then `add_tool_result` per call): the
      assistant message carrying the calls, then the tool results. */
  function Step(tools: Tools, resp: Response, messages: seq<Message>): (r: seq<Message>)
    requires HasToolCalls(resp)
    ensures r == messages + Block(tools, resp)
  {
    var dicts := ToolCallDicts(resp.toolCalls);
    DispatchCalls(tools, resp.toolCalls, AddAssistantMessage(messages, resp.content, Some(dicts), resp.reasoning))
  }

  /** Each notification opens with the iteration marker and number. */
  lemma ProgressTextShape(tools: Tools, resp: Response, iteration: nat)
    ensures StartsWith(ProgressText(tools, resp, iteration), IterationMarker + NatToString(iteration))
  {
    JoinStartsWithFirst(HeaderLines(resp, iteration) + CallLines(tools, resp.toolCalls), "\n\n");
  }

  /** The content returned for the response that ends the loop: the
      stripped content, after the first iteration prefixed by the final
      marker, the iteration number and a blank line (a missing body then
      reads `None`, as Python's f-string renders it). */
  function FinalContent(content: Option<string>, iteration: nat): Option<string> {
    var stripped := StripThink(content);
    if iteration > 1 then Some(Marked(FinalMarker + NatToString(iteration), stripped)) else stripped
  }

  /** `f"{head}\n\n{stripped}"`, where a missing text renders as `None`. */
  function Marked(head: string, stripped: Option<string>): string {
    head + "\n\n" + (if stripped.None? then "None" else stripped.value)
  }

  /** The answer of a first-iteration response is its stripped content; a
      later one always has an answer, opening with the marker and number
      and ending with the stripped content, or `None` without one. */
  lemma FinalContentShape(content: Option<string>, iteration: nat)
    ensures iteration <= 1 ==> FinalContent(content, iteration) == StripThink(content)
    ensures iteration > 1 ==> FinalContent(content, iteration).Some?
    ensures iteration > 1 ==>
      StartsWith(FinalContent(content, iteration).value, FinalMarker + NatToString(iteration) + "\n\n")
    ensures iteration > 1 && StripThink(content).None? ==>
      FinalContent(content, iteration).value == FinalMarker + NatToString(iteration) + "\n\nNone"
    ensures iteration > 1 && StripThink(content).Some? ==>
      EndsWith(FinalContent(content, iteration).value, "\n\n" + StripThink(content).value)
  {
    if iteration > 1 {
      MarkedShape(FinalMarker + NatToString(iteration), StripThink(content));
    }
  }

  lemma MarkedShape(head: string, stripped: Option<string>)
    ensures StartsWith(Marked(head, stripped), head + "\n\n")
    ensures stripped.None? ==> Marked(head, stripped) == head + "\n\nNone"
    ensures stripped.Some? ==> EndsWith(Marked(head, stripped), "\n\n" + stripped.value)
  {
    var body := if stripped.None? then "None" else stripped.value;
    ConcatEnds(head + "\n\n", body);
    ConcatEnds(head, "\n\n" + body);
    assert head + "\n\n" + body == head + ("\n\n" + body);
    if stripped.None? {
      assert "\n\n" + body == "\n\nNone";
    }
  }

  /** What the loop does with a response, seen from the loop's control:
      the schemas it sends, the messages a tool-call response appends, the
      notification of a tool-call iteration and the answer of the last
      response (each given the iteration number). */
  datatype Effects = Effects(
    definitions: seq<string>,
    block: Response -> seq<Message>,
    progress: (Response, nat) -> string,
    answer: (Option<string>, nat) -> Option<string>)

  /** The effects `_run_agent_loop` has over a registry. */
  function RegistryEffects(reg: ToolTable): Effects {
    var tools := RegistryTools(reg);
    Effects(Definitions(reg), (resp: Response) => Block(tools, resp),
            (resp: Response, i: nat) => ProgressText(tools, resp, i),
            (c: Option<string>, i: nat) => FinalContent(c, i))
  }

  /** The loop's running variables; the iteration counter is the number of
      responses received so far. */
  datatype LoopState = LoopState(messages: seq<Message>, toolsUsed: seq<string>,
                                 progress: seq<string>, responses: seq<Response>)

  /** The state before the first iteration: the initial messages, nothing
      recorded yet. */
  function Start(initial: seq<Message>): (st: LoopState)
    ensures st.messages == initial && st.responses == []
  {
    LoopState(initial, [], [], [])
  }

  /** What the loop returns (`final_content`, `tools_used`) together with its
      observable effects: the message list it grew, the notifications it
      sent, the responses it received, and whether a response without tool
      calls ended it. */
  datatype LoopResult = LoopResult(final: Option<string>, toolsUsed: seq<string>, messages: seq<Message>,
                                   progress: seq<string>, responses: seq<Response>, stopped: bool)

  /** The `while iteration < self.max_iterations` loop, from state `st`: the
      responses already received are kept, a response without tool calls
      ends the loop within the cap with its rendered content as the answer,
      and otherwise the loop runs until the cap with no answer. */
  function Iterate(maxIterations: int, fx: Effects, chat: Chat, notify: bool, st: LoopState): (r: LoopResult)
    ensures |r.responses| >= |st.responses|
    ensures forall i :: 0 <= i < |st.responses| ==> r.responses[i] == st.responses[i]
    ensures r.stopped ==> |st.responses| < |r.responses| <= maxIterations
    ensures r.stopped ==> !HasToolCalls(r.responses[|r.responses| - 1])
    ensures r.stopped ==> r.final == fx.answer(r.responses[|r.responses| - 1].content, |r.responses|)
    ensures !r.stopped ==> r.final.None? && |r.responses| == Max(|st.responses|, maxIterations)
    decreases maxIterations - |st.responses|
  {
    if |st.responses| >= maxIterations then
      LoopResult(None, st.toolsUsed, st.messages, st.progress, st.responses, false)
    else
      var resp := chat(st.messages, fx.definitions);
      if HasToolCalls(resp) then
        Iterate(maxIterations, fx, chat, notify, Next(fx, notify, st, resp))
      else
        LoopResult(fx.answer(resp.content, |st.responses| + 1), st.toolsUsed, st.messages, st.progress,
                   st.responses + [resp], true)
  }

  /** The state after one tool-call iteration on `resp`: the messages grown,
      the called names recorded, the notification sent when a sink was
      given. */
  function Next(fx: Effects, notify: bool, st: LoopState, resp: Response): (st': LoopState)
    ensures st'.responses == st.responses + [resp]
    ensures st'.messages == st.messages + fx.block(resp)
  {
    var iteration := |st.responses| + 1;
    LoopState(st.messages + fx.block(resp), st.toolsUsed + CallNames(resp.toolCalls),
              st.progress + (if notify then [fx.progress(resp, iteration)] else []),
              st.responses + [resp])
  }

  /** The responses that carried tool calls, from index `from` on: all but a
      final one that ended the loop. */
  function Dispatching(r: LoopResult, from: nat): seq<Response>
    requires from + (if r.stopped then 1 else 0) <= |r.responses|
  {
    r.responses[from..|r.responses| - (if r.stopped then 1 else 0)]
  }

  /** All messages appended over a run of tool-call iterations, in order. */
  function Transcript(fx: Effects, rs: seq<Response>): seq<Message> {
    if rs == [] then [] else fx.block(rs[0]) + Transcript(fx, rs[1..])
  }

  /** All tool names called over a run of tool-call iterations, in order. */
  function AllNames(rs: seq<Response>): seq<string> {
    if rs == [] then [] else CallNames(rs[0].toolCalls) + AllNames(rs[1..])
  }

  /** The notifications of a run of tool-call iterations numbered from `first`. */
  function Progress(fx: Effects, rs: seq<Response>, first: nat): (r: seq<string>)
    ensures |r| == |rs|
  {
    if rs == [] then [] else [fx.progress(rs[0], first)] + Progress(fx, rs[1..], first + 1)
  }

  lemma {:induction false} ProgressAt(fx: Effects, rs: seq<Response>, first: nat, i: nat)
    requires i < |rs|
    ensures Progress(fx, rs, first)[i] == fx.progress(rs[i], first + i)
  {
    if i > 0 {
      ProgressAt(fx, rs[1..], first + 1, i - 1);
    }
  }

  /** One tool-call iteration: the run from `st` is the run from the next
      state, and its tool-call responses are this one followed by the
      later ones. */
  lemma IterateStep(maxIterations: int, fx: Effects, chat: Chat, notify: bool, st: LoopState)
    requires |st.responses| < maxIterations && HasToolCalls(chat(st.messages, fx.definitions))
    ensures var resp := chat(st.messages, fx.definitions);
            var r := Iterate(maxIterations, fx, chat, notify, st);
            && r == Iterate(maxIterations, fx, chat, notify, Next(fx, notify, st, resp))
            && Dispatching(r, |st.responses|) == [resp] + Dispatching(r, |st.responses| + 1)
  {
    var resp := chat(st.messages, fx.definitions);
    var st' := Next(fx, notify, st, resp);
    var r := Iterate(maxIterations, fx, chat, notify, st);
    assert r == Iterate(maxIterations, fx, chat, notify, st');
    assert r.responses[|st.responses|] == st'.responses[|st.responses|] == resp;
  }

  /** The run from a state that has reached the cap, or whose next response
      carries no tool call, changes nothing but the responses. */
  lemma IterateHalt(maxIterations: int, fx: Effects, chat: Chat, notify: bool, st: LoopState)
    requires |st.responses| >= maxIterations || !HasToolCalls(chat(st.messages, fx.definitions))
    ensures var r := Iterate(maxIterations, fx, chat, notify, st);
            && Dispatching(r, |st.responses|) == []
            && r.toolsUsed == st.toolsUsed && r.messages == st.messages && r.progress == st.progress
  {
  }

  /** The tool names the loop records from a state are those of the
      tool-call responses, in order. */
  lemma {:induction false} IterateNames(maxIterations: int, fx: Effects, chat: Chat, notify: bool, st: LoopState)
    ensures var r := Iterate(maxIterations, fx, chat, notify, st);
            r.toolsUsed == st.toolsUsed + AllNames(Dispatching(r, |st.responses|))
    decreases maxIterations - |st.responses|
  {
    var resp := chat(st.messages, fx.definitions);
    if |st.responses| < maxIterations && HasToolCalls(resp) {
      var st' := Next(fx, notify, st, resp);
      IterateStep(maxIterations, fx, chat, notify, st);
      IterateNames(maxIterations, fx, chat, notify, st');
      var r := Iterate(maxIterations, fx, chat, notify, st');
      AppendAssoc(st.toolsUsed, CallNames(resp.toolCalls), AllNames(Dispatching(r, |st.responses| + 1)));
    } else {
      IterateHalt(maxIterations, fx, chat, notify, st);
    }
  }

  /** The messages the loop appends from a state are the blocks of the
      tool-call responses, in order. */
  lemma {:induction false} IterateMessages(maxIterations: int, fx: Effects, chat: Chat, notify: bool, st: LoopState)
    ensures var r := Iterate(maxIterations, fx, chat, notify, st);
            r.messages == st.messages + Transcript(fx, Dispatching(r, |st.responses|))
    decreases maxIterations - |st.responses|
  {
    var resp := chat(st.messages, fx.definitions);
    if |st.responses| < maxIterations && HasToolCalls(resp) {
      var st' := Next(fx, notify, st, resp);
      IterateStep(maxIterations, fx, chat, notify, st);
      IterateMessages(maxIterations, fx, chat, notify, st');
      var r := Iterate(maxIterations, fx, chat, notify, st');
      var later := Dispatching(r, |st.responses| + 1);
      assert Transcript(fx, [resp] + later) == fx.block(resp) + Transcript(fx, later) by {
        assert ([resp] + later)[1..] == later;
      }
      AppendAssoc(st.messages, fx.block(resp), Transcript(fx, later));
    } else {
      IterateHalt(maxIterations, fx, chat, notify, st);
    }
  }

  /** The notifications the loop sends from a state are those of the
      tool-call responses, numbered on from the responses already received,
      and none without a sink. */
  lemma {:induction false} IterateProgress(maxIterations: int, fx: Effects, chat: Chat, notify: bool, st: LoopState)
    ensures var r := Iterate(maxIterations, fx, chat, notify, st);
            r.progress == st.progress + (if notify then Progress(fx, Dispatching(r, |st.responses|), |st.responses| + 1) else [])
    decreases maxIterations - |st.responses|
  {
    var resp := chat(st.messages, fx.definitions);
    var k := |st.responses|;
    if k < maxIterations && HasToolCalls(resp) {
      var st' := Next(fx, notify, st, resp);
      IterateStep(maxIterations, fx, chat, notify, st);
      IterateProgress(maxIterations, fx, chat, notify, st');
      var r := Iterate(maxIterations, fx, chat, notify, st');
      var later := Dispatching(r, k + 1);
      if notify {
        assert Progress(fx, [resp] + later, k + 1) == [fx.progress(resp, k + 1)] + Progress(fx, later, k + 2) by {
          assert ([resp] + later)[1..] == later;
        }
        AppendAssoc(st.progress, [fx.progress(resp, k + 1)], Progress(fx, later, k + 2));
      }
    } else {
      IterateHalt(maxIterations, fx, chat, notify, st);
    }
  }

  /** A provider that always asks for tools never ends the loop early. */
  lemma {:induction false} IterateNeverStops(maxIterations: int, fx: Effects, chat: Chat, notify: bool, st: LoopState)
    requires forall m, d :: HasToolCalls(chat(m, d))
    ensures !Iterate(maxIterations, fx, chat, notify, st).stopped
    decreases maxIterations - |st.responses|
  {
    if |st.responses| < maxIterations {
      var resp := chat(st.messages, fx.definitions);
      IterateNeverStops(maxIterations, fx, chat, notify, Next(fx, notify, st, resp));
    }
  }

  lemma AppendAssoc<T>(a: seq<T>, b: seq<T>, c: seq<T>)
    ensures (a + b) + c == a + (b + c)
  {
  }

  /** Every response but a terminating one carried tool calls. */
  lemma {:induction false} IterateCalls(maxIterations: int, fx: Effects, chat: Chat, notify: bool, st: LoopState)
    ensures var r := Iterate(maxIterations, fx, chat, notify, st);
            forall i :: |st.responses| <= i < |r.responses| - (if r.stopped then 1 else 0) ==>
              HasToolCalls(r.responses[i])
    decreases maxIterations - |st.responses|
  {
    var k := |st.responses|;
    if k < maxIterations {
      var resp := chat(st.messages, fx.definitions);
      if HasToolCalls(resp) {
        var st' := Next(fx, notify, st, resp);
        IterateCalls(maxIterations, fx, chat, notify, st');
        var r := Iterate(maxIterations, fx, chat, notify, st);
        assert r == Iterate(maxIterations, fx, chat, notify, st');
        assert r.responses[k] == st'.responses[k] == resp;
      }
    }
  }

  lemma TranscriptCons(fx: Effects, resp: Response, rs: seq<Response>)
    ensures Transcript(fx, [resp] + rs) == fx.block(resp) + Transcript(fx, rs)
  {
    assert ([resp] + rs)[1..] == rs;
  }

  /** The first response of a run from `st` answers `st`'s messages, and
      only a tool-call response is followed by another. */
  lemma IterateFirst(maxIterations: int, fx: Effects, chat: Chat, notify: bool, st: LoopState)
    requires |st.responses| < |Iterate(maxIterations, fx, chat, notify, st).responses|
    ensures var r := Iterate(maxIterations, fx, chat, notify, st);
            var resp := chat(st.messages, fx.definitions);
            && r.responses[|st.responses|] == resp
            && (|st.responses| + 1 < |r.responses| ==> HasToolCalls(resp))
  {
    var resp := chat(st.messages, fx.definitions);
    if HasToolCalls(resp) {
      var st' := Next(fx, notify, st, resp);
      assert st'.responses[|st.responses|] == resp;
    }
  }

  /** The response at index `i` is the provider's answer to the messages
      accumulated before it. */
  lemma {:induction false} IterateAskedAt(maxIterations: int, fx: Effects, chat: Chat, notify: bool, st: LoopState, i: nat)
    requires |st.responses| <= i < |Iterate(maxIterations, fx, chat, notify, st).responses|
    ensures var r := Iterate(maxIterations, fx, chat, notify, st);
            r.responses[i] == chat(st.messages + Transcript(fx, r.responses[|st.responses|..i]), fx.definitions)
    decreases maxIterations - |st.responses|
  {
    var r := Iterate(maxIterations, fx, chat, notify, st);
    var k := |st.responses|;
    var resp := chat(st.messages, fx.definitions);
    IterateFirst(maxIterations, fx, chat, notify, st);
    if i == k {
      assert r.responses[k..k] == [];
      assert st.messages + Transcript(fx, []) == st.messages;
    } else {
      var st' := Next(fx, notify, st, resp);
      IterateStep(maxIterations, fx, chat, notify, st);
      IterateAskedAt(maxIterations, fx, chat, notify, st', i);
      var later := r.responses[k + 1..i];
      assert r.responses[k..i] == [resp] + later;
      TranscriptCons(fx, resp, later);
      AppendAssoc(st.messages, fx.block(resp), Transcript(fx, later));
    }
  }

  /** Each response is the provider's answer to the messages accumulated
      before it. */
  lemma IterateAsks(maxIterations: int, fx: Effects, chat: Chat, notify: bool, st: LoopState)
    ensures var r := Iterate(maxIterations, fx, chat, notify, st);
            forall i :: |st.responses| <= i < |r.responses| ==>
              r.responses[i] == chat(st.messages + Transcript(fx, r.responses[|st.responses|..i]), fx.definitions)
  {
    var r := Iterate(maxIterations, fx, chat, notify, st);
    forall i | |st.responses| <= i < |r.responses|
      ensures r.responses[i] == chat(st.messages + Transcript(fx, r.responses[|st.responses|..i]), fx.definitions)
    {
      IterateAskedAt(maxIterations, fx, chat, notify, st, i);
    }
  }

  /** `_run_agent_loop(initial_messages, on_progress)` over a registry;
      `notify` says whether an `on_progress` callback was passed. */
  function RunAgentLoop(maxIterations: int, reg: ToolTable, chat: Chat, initial: seq<Message>,
                        notify: bool): (r: LoopResult)
    ensures |r.responses| <= Max(0, maxIterations)
    ensures r.stopped ==> 1 <= |r.responses| && !HasToolCalls(r.responses[|r.responses| - 1])
    ensures !r.stopped ==> r.final.None? && |r.responses| == Max(0, maxIterations)
  {
    LoopRun(maxIterations, RegistryEffects(reg), chat, initial, notify)
  }

  /** A run from the initial messages makes at most `max_iterations` calls,
      exactly that many unless a response without tool calls ended it, and
      then answers with that response's content. */
  function LoopRun(maxIterations: int, fx: Effects, chat: Chat, initial: seq<Message>,
                   notify: bool): (r: LoopResult)
    ensures |r.responses| <= Max(0, maxIterations)
    ensures r.stopped ==> 1 <= |r.responses| && !HasToolCalls(r.responses[|r.responses| - 1])
    ensures r.stopped ==> r.final == fx.answer(r.responses[|r.responses| - 1].content, |r.responses|)
    ensures !r.stopped ==> r.final.None? && |r.responses| == Max(0, maxIterations)
  {
    Iterate(maxIterations, fx, chat, notify, Start(initial))
  }

  /** The answer is the stripped content of the response that ended the
      loop, marked with its iteration number after the first. */
  lemma RunAgentLoopAnswer(maxIterations: int, reg: ToolTable, chat: Chat, initial: seq<Message>, notify: bool)
    ensures var r := RunAgentLoop(maxIterations, reg, chat, initial, notify);
            r.stopped ==> r.final == FinalContent(r.responses[|r.responses| - 1].content, |r.responses|)
  {
    var r := RunAgentLoop(maxIterations, reg, chat, initial, notify);
    if r.stopped {
      RegistryAnswer(reg, r.responses[|r.responses| - 1].content, |r.responses|);
    }
  }

  /** Over a registry, the answer of the last response is `FinalContent`. */
  lemma RegistryAnswer(reg: ToolTable, content: Option<string>, iteration: nat)
    ensures RegistryEffects(reg).answer(content, iteration) == FinalContent(content, iteration)
  {
  }

  /** Every response before the last carried tool calls; the recorded tool
      names and the grown message list are those of these responses, in
      order. */
  lemma RunAgentLoopDispatch(maxIterations: int, reg: ToolTable, chat: Chat, initial: seq<Message>, notify: bool)
    ensures var r := RunAgentLoop(maxIterations, reg, chat, initial, notify);
            var calls := Dispatching(r, 0);
            && (forall i :: 0 <= i < |calls| ==> HasToolCalls(calls[i]))
            && r.toolsUsed == AllNames(calls)
            && r.messages == initial + Transcript(RegistryEffects(reg), calls)
  {
    var st := Start(initial);
    IterateCalls(maxIterations, RegistryEffects(reg), chat, notify, st);
    IterateNames(maxIterations, RegistryEffects(reg), chat, notify, st);
    IterateMessages(maxIterations, RegistryEffects(reg), chat, notify, st);
  }

  /** The progress sink hears once per tool-call iteration, never about the
      response that ended the loop, and nothing without a sink. */
  lemma RunAgentLoopProgress(maxIterations: int, reg: ToolTable, chat: Chat, initial: seq<Message>, notify: bool)
    ensures var r := RunAgentLoop(maxIterations, reg, chat, initial, notify);
            var calls := Dispatching(r, 0);
            && (notify ==> |r.progress| == |calls|
                           && forall i :: 0 <= i < |calls| ==>
                                r.progress[i] == ProgressText(RegistryTools(reg), calls[i], i + 1))
            && (!notify ==> r.progress == [])
  {
    var fx := RegistryEffects(reg);
    var r := RunAgentLoop(maxIterations, reg, chat, initial, notify);
    assert r == Iterate(maxIterations, fx, chat, notify, Start(initial));
    ProgressFromStart(maxIterations, fx, chat, notify, initial);
    if notify {
      RegistryProgress(reg, Dispatching(r, 0), 1);
    }
  }

  /** A run from the initial state notifies once per tool-call iteration,
      numbered from 1. */
  lemma ProgressFromStart(maxIterations: int, fx: Effects, chat: Chat, notify: bool, initial: seq<Message>)
    ensures var r := Iterate(maxIterations, fx, chat, notify, Start(initial));
            r.progress == if notify then Progress(fx, Dispatching(r, 0), 1) else []
  {
    IterateProgress(maxIterations, fx, chat, notify, Start(initial));
  }

  /** Over a registry, the notices are the iterations' progress texts. */
  lemma RegistryProgress(reg: ToolTable, rs: seq<Response>, first: nat)
    ensures forall i :: 0 <= i < |rs| ==>
      Progress(RegistryEffects(reg), rs, first)[i] == ProgressText(RegistryTools(reg), rs[i], first + i)
  {
    var fx := RegistryEffects(reg);
    forall i | 0 <= i < |rs|
      ensures Progress(fx, rs, first)[i] == ProgressText(RegistryTools(reg), rs[i], first + i)
    {
      ProgressAt(fx, rs, first, i);
      RegistryNotice(reg, rs[i], first + i);
    }
  }

  /** A registry's progress effect is the progress text over its tools. */
  lemma RegistryNotice(reg: ToolTable, resp: Response, iteration: nat)
    ensures RegistryEffects(reg).progress(resp, iteration) == ProgressText(RegistryTools(reg), resp, iteration)
  {
  }

  /** Each response is the provider's answer to the messages accumulated
      before it, sent with the registry's definitions. */
  lemma RunAgentLoopAsks(maxIterations: int, reg: ToolTable, chat: Chat, initial: seq<Message>, notify: bool)
    ensures var r := RunAgentLoop(maxIterations, reg, chat, initial, notify);
            forall i :: 0 <= i < |r.responses| ==>
              r.responses[i] == chat(initial + Transcript(RegistryEffects(reg), r.responses[..i]), Definitions(reg))
  {
    var fx := RegistryEffects(reg);
    var r := RunAgentLoop(maxIterations, reg, chat, initial, notify);
    var st := Start(initial);
    assert r == Iterate(maxIterations, fx, chat, notify, st);
    assert forall i :: 0 <= i < |r.responses| ==>
             r.responses[i] == chat(initial + Transcript(fx, r.responses[0..i]), fx.definitions) by {
      IterateAsks(maxIterations, fx, chat, notify, st);
    }
    forall i | 0 <= i < |r.responses|
      ensures r.responses[i] == chat(initial + Transcript(fx, r.responses[..i]), Definitions(reg))
    {
      assert r.responses[0..i] == r.responses[..i];
    }
  }

  /** A provider that always asks for tools gets exactly `max_iterations`
      calls, and the loop ends without content. */
  lemma AlwaysCallingExhausts(maxIterations: int, reg: ToolTable, chat: Chat, initial: seq<Message>, notify: bool)
    requires forall m, d :: HasToolCalls(chat(m, d))
    ensures var r := RunAgentLoop(maxIterations, reg, chat, initial, notify);
            && !r.stopped && r.final.None? && |r.responses| == Max(0, maxIterations)
  {
    IterateNeverStops(maxIterations, RegistryEffects(reg), chat, notify, Start(initial));
  }

  const SearchCall: ToolCall := ToolCall("call_1", "search", map[])

  /** With a cap of 3 and a provider that always asks for one tool, the
      provider is called exactly three times, there is no final content, and
      the tool is recorded three times. */
  lemma CapOfThreeScenario(reg: ToolTable, initial: seq<Message>)
    ensures var chat: Chat := (m, d) => Response(None, [SearchCall], None);
            var r := RunAgentLoop(3, reg, chat, initial, true);
            |r.responses| == 3 && r.final.None? && r.toolsUsed == ["search", "search", "search"]
  {
    var chat: Chat := (m, d) => Response(None, [SearchCall], None);
    var resp := Response(None, [SearchCall], None);
    AlwaysCallingExhausts(3, reg, chat, initial, true);
    RunAgentLoopDispatch(3, reg, chat, initial, true);
    RunAgentLoopAsks(3, reg, chat, initial, true);
    var r := RunAgentLoop(3, reg, chat, initial, true);
    assert r.responses[0] == resp && r.responses[1] == resp && r.responses[2] == resp;
    assert Dispatching(r, 0) == [resp, resp, resp];
    assert CallNames(resp.toolCalls) == ["search"];
    assert AllNames([resp]) == ["search"];
    assert AllNames([resp, resp]) == ["search"] + AllNames([resp]);
    assert AllNames([resp, resp, resp]) == ["search"] + AllNames([resp, resp]);
  }

  /** A provider that answers at once: one call, the trimmed content
      returned without a marker, no tools used, no notification. */
  lemma DirectAnswerScenario(reg: ToolTable, initial: seq<Message>, text: string)
    requires 1 <= |text| && !IsSpace(text[0]) && !IsSpace(text[|text| - 1])
    requires forall k: nat :: !OccursAt(text, Open, k)
    ensures var chat: Chat := (m, d) => Response(Some(text), [], None);
            var r := RunAgentLoop(20, reg, chat, initial, true);
            |r.responses| == 1 && r.final == Some(text) && r.toolsUsed == [] && r.progress == []
  {
    StripThinkTagFree(text);
    StripTrimmed(text);
  }

  /** The `j`-th progress line names the `j`-th call and previews the
      registry's text for it. */
  lemma {:induction false} CallLinesInOrder(tools: Tools, calls: seq<ToolCall>)
    ensures forall j :: 0 <= j < |calls| ==>
      CallLines(tools, calls)[j] == ToolMarker + calls[j].name + " - " + Preview(ToolText(tools, calls[j]))
  {
    if calls != [] {
      CallLinesInOrder(tools, calls[1..]);
    }
  }
}
