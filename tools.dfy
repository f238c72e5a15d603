/** `ToolManager` from scripts/clients/tools.py: dispatch of the language
    model's tool calls to registered tools, with a call counter, a call history
    and a usage summary.

    A tool is its name and an identity; what it does when invoked is the
    manager's `invoke` function, which either returns an output or raises. */
module Tools {
  import opened Wrappers
  import opened Text

  /** The `args` dictionary of a tool call. */
  type Args = map<string, string>

  /** A tool call dictionary; each key may be absent. */
  datatype ToolCall = ToolCall(name: Option<string>, args: Option<Args>, id: Option<string>)

  datatype Tool = Tool(name: string, toolId: nat)

  /** What a tool returns: a `(content, token_count)` pair, or any other value
      given by its `str()`. */
  datatype ToolOutput = ContentWithTokens(content: string, tokenCount: int) | OtherOutput(text: string)

  /** An invocation either returns or raises an exception with a message. */
  datatype Invocation = Returned(output: ToolOutput) | Raised(message: string)

  /** A `ToolMessage`; `metadata` holds the token count when there is one. */
  datatype ToolMessage = ToolMessage(content: string, toolCallId: string, tokenCount: Option<int>)

  /** One `tool_call_history` record. */
  datatype HistoryRecord = HistoryRecord(toolName: string, args: Args, callId: string)

  /** What one call answers and what it records. */
  datatype Response = Response(message: ToolMessage, record: Option<HistoryRecord>)

  /** `{tool.name: tool for tool in tools}`: a later tool with the same name
      replaces an earlier one. */
  function ToolMap(tools: seq<Tool>): (m: map<string, Tool>)
    ensures forall n :: n in m ==> m[n].name == n
  {
    if tools == [] then map[]
    else ToolMap(tools[..|tools| - 1])[tools[|tools| - 1].name := tools[|tools| - 1]]
  }

  /** The index of the last tool named `n`, or -1 when none is. */
  function LastNamed(tools: seq<Tool>, n: string): (r: int)
    ensures -1 <= r < |tools|
    ensures r >= 0 ==> tools[r].name == n
    ensures forall k :: r < k < |tools| ==> tools[k].name != n
  {
    if tools == [] then -1
    else if tools[|tools| - 1].name == n then |tools| - 1
    else
      var init := tools[..|tools| - 1];
      assert forall k :: 0 <= k < |init| ==> init[k] == tools[k];
      LastNamed(init, n)
  }

  /** A name is in the map exactly when some tool has it, and it maps to the
      last tool with that name. */
  lemma {:induction false} ToolMapLastWins(tools: seq<Tool>, n: string)
    ensures n in ToolMap(tools) <==> LastNamed(tools, n) >= 0
    ensures n in ToolMap(tools) ==> ToolMap(tools)[n] == tools[LastNamed(tools, n)]
  {
    if tools != [] && tools[|tools| - 1].name != n {
      var init := tools[..|tools| - 1];
      ToolMapLastWins(init, n);
      assert forall k :: 0 <= k < |init| ==> init[k] == tools[k];
    }
  }

  function CallId(call: ToolCall): string {
    call.id.GetOr("unknown")
  }

  /** `call_tool`'s answer and history record for one call, in the order of the
      source's checks: a missing or empty name, an unknown name, a raising
      invocation, a `(content, token_count)` output, any other output. */
  function Respond(toolMap: map<string, Tool>, invoke: (Tool, Args) -> Invocation, call: ToolCall): (r: Response)
    ensures r.message.toolCallId == CallId(call)
  {
    var id := CallId(call);
    if call.name.None? || call.name.value == "" then
      Response(ToolMessage("Error: Tool call must have a 'name'.", id, None), None)
    else if call.name.value !in toolMap then
      Response(ToolMessage("Error: Tool '" + call.name.value + "' not found.", id, None), None)
    else
      var name := call.name.value;
      var args := call.args.GetOr(map[]);
      match invoke(toolMap[name], args)
      case Raised(e) => Response(ToolMessage("Error executing tool '" + name + "': " + e, id, None), None)
      case Returned(ContentWithTokens(content, tokens)) =>
        Response(ToolMessage(content, id, Some(tokens)), Some(HistoryRecord(name, args, id)))
      case Returned(OtherOutput(text)) =>
        Response(ToolMessage(text, id, None), Some(HistoryRecord(name, args, id)))
  }

  /** The five outcomes of a call, one per check of `call_tool`. */
  lemma RespondCases(toolMap: map<string, Tool>, invoke: (Tool, Args) -> Invocation, call: ToolCall)
    ensures call.name.None? || call.name == Some("") ==>
      Respond(toolMap, invoke, call) == Response(ToolMessage("Error: Tool call must have a 'name'.", CallId(call), None), None)
    ensures call.name.Some? && call.name.value != "" && call.name.value !in toolMap ==>
      Respond(toolMap, invoke, call) == Response(ToolMessage("Error: Tool '" + call.name.value + "' not found.", CallId(call), None), None)
    ensures call.name.Some? && call.name.value != "" && call.name.value in toolMap ==>
      match invoke(toolMap[call.name.value], call.args.GetOr(map[]))
      case Raised(e) =>
        Respond(toolMap, invoke, call) == Response(ToolMessage("Error executing tool '" + call.name.value + "': " + e, CallId(call), None), None)
      case Returned(out) =>
        && Respond(toolMap, invoke, call).record == Some(HistoryRecord(call.name.value, call.args.GetOr(map[]), CallId(call)))
        && (out.ContentWithTokens? ==> Respond(toolMap, invoke, call).message == ToolMessage(out.content, CallId(call), Some(out.tokenCount)))
        && (out.OtherOutput? ==> Respond(toolMap, invoke, call).message == ToolMessage(out.text, CallId(call), None))
  {
  }

  function RecordSeq(r: Option<HistoryRecord>): (s: seq<HistoryRecord>)
    ensures |s| <= 1
  {
    if r.Some? then [r.value] else []
  }

  /** The history records a batch of calls leaves, in call order. */
  function Recorded(toolMap: map<string, Tool>, invoke: (Tool, Args) -> Invocation, calls: seq<ToolCall>)
    : (h: seq<HistoryRecord>)
    ensures |h| <= |calls|
  {
    if calls == [] then []
    else Recorded(toolMap, invoke, calls[..|calls| - 1]) + RecordSeq(Respond(toolMap, invoke, calls[|calls| - 1]).record)
  }

  lemma RecordedStep(toolMap: map<string, Tool>, invoke: (Tool, Args) -> Invocation, calls: seq<ToolCall>, i: nat)
    requires i < |calls|
    ensures Recorded(toolMap, invoke, calls[..i + 1])
         == Recorded(toolMap, invoke, calls[..i]) + RecordSeq(Respond(toolMap, invoke, calls[i]).record)
  {
    assert calls[..i + 1][..i] == calls[..i];
  }

  lemma AppendAssoc(a: seq<HistoryRecord>, b: seq<HistoryRecord>, c: seq<HistoryRecord>)
    ensures (a + b) + c == a + (b + c)
  {
  }

  /** A call is recorded exactly when it names a registered tool whose
      invocation returns; nothing else ever reaches the history. */
  lemma RecordedIffInvoked(toolMap: map<string, Tool>, invoke: (Tool, Args) -> Invocation, call: ToolCall)
    ensures Respond(toolMap, invoke, call).record.Some? <==>
      call.name.Some? && call.name.value != "" && call.name.value in toolMap &&
      invoke(toolMap[call.name.value], call.args.GetOr(map[])).Returned?
  {
  }

  class ToolManager {
    const tools: seq<Tool>
    const toolMap: map<string, Tool>
    const invoke: (Tool, Args) -> Invocation
    /** Stored but never consulted: nothing stops calls beyond it. */
    const toolCallLimit: int
    var toolCallCount: int
    var toolCallHistory: seq<HistoryRecord>

    /** The counter always equals the number of history records. */
    predicate Valid()
      reads this
    {
      toolMap == ToolMap(tools) && toolCallCount == |toolCallHistory|
    }

    constructor(tools: seq<Tool>, invoke: (Tool, Args) -> Invocation, toolCallLimit: int := 5)
      ensures Valid()
      ensures this.tools == tools && this.invoke == invoke && this.toolCallLimit == toolCallLimit
      ensures toolCallCount == 0 && toolCallHistory == []
    {
      this.tools := tools;
      this.toolMap := ToolMap(tools);
      this.invoke := invoke;
      this.toolCallLimit := toolCallLimit;
      this.toolCallCount := 0;
      this.toolCallHistory := [];
    }

    /** `call_tool`: answer the call and, when the tool ran, count it and
      record it. */
    method CallTool(call: ToolCall) returns (msg: ToolMessage)
      requires Valid()
      modifies this
      ensures Valid()
      ensures msg == Respond(toolMap, invoke, call).message
      ensures toolCallHistory == old(toolCallHistory) + RecordSeq(Respond(toolMap, invoke, call).record)
    {
      var id := CallId(call);
      if call.name.None? || call.name.value == "" {
        return ToolMessage("Error: Tool call must have a 'name'.", id, None);
      }
      var toolName := call.name.value;
      var toolArgs := call.args.GetOr(map[]);
      if toolName !in toolMap {
        return ToolMessage("Error: Tool '" + toolName + "' not found.", id, None);
      }
      var output := invoke(toolMap[toolName], toolArgs);
      if output.Raised? {
        return ToolMessage("Error executing tool '" + toolName + "': " + output.message, id, None);
      }
      toolCallCount := toolCallCount + 1;
      toolCallHistory := toolCallHistory + [HistoryRecord(toolName, toolArgs, id)];
      match output.output
      case ContentWithTokens(content, tokenCount) =>
        msg := ToolMessage(content, id, Some(tokenCount));
      case OtherOutput(text) =>
        msg := ToolMessage(text, id, None);
    }

    /** `batch_tool_call`: one message per call, in call order. */
    method BatchToolCall(calls: seq<ToolCall>) returns (msgs: seq<ToolMessage>)
      requires Valid()
      modifies this
      ensures Valid()
      ensures |msgs| == |calls|
      ensures forall i :: 0 <= i < |calls| ==> msgs[i] == Respond(toolMap, invoke, calls[i]).message
      ensures toolCallHistory == old(toolCallHistory) + Recorded(toolMap, invoke, calls)
    {
      msgs := [];
      for i := 0 to |calls|
        invariant Valid()
        invariant |msgs| == i
        invariant forall k :: 0 <= k < i ==> msgs[k] == Respond(toolMap, invoke, calls[k]).message
        invariant toolCallHistory == old(toolCallHistory) + Recorded(toolMap, invoke, calls[..i])
      {
        RecordedStep(toolMap, invoke, calls, i);
        var toolOutput := CallTool(calls[i]);
        AppendAssoc(old(toolCallHistory), Recorded(toolMap, invoke, calls[..i]),
                    RecordSeq(Respond(toolMap, invoke, calls[i]).record));
        msgs := msgs + [toolOutput];
      }
      assert calls[..|calls|] == calls;
    }

    /** `get_tool_usage_summary`: count the calls per tool name in order of first
      use, then format them. */
    method GetToolUsageSummary() returns (summary: string)
      ensures summary == UsageSummary(toolCallHistory)
    {
      if toolCallHistory == [] {
        return "No tool calls were made.";
      }
      var names := ToolNames(toolCallHistory);
      var order, toolCounts := CountToolUses(toolCallHistory);
      var toolList := FormatUsage(order, toolCounts, names);
      assert toolList == UsageItems(order, names);
      summary := "Tools used: " + Join(", ", toolList);
    }
  }

  /** The counting loop of `get_tool_usage_summary`: each name's count, and the
      names in the order they were first inserted into the dict. */
  method CountToolUses(history: seq<HistoryRecord>) returns (order: seq<string>, toolCounts: map<string, nat>)
    ensures order == FirstUseOrder(ToolNames(history))
    ensures forall n :: n in toolCounts <==> n in ToolNames(history)
    ensures forall n :: n in toolCounts ==> toolCounts[n] == multiset(ToolNames(history))[n]
  {
    ghost var names := ToolNames(history);
    order := [];
    toolCounts := map[];
    for i := 0 to |history|
      invariant order == FirstUseOrder(names[..i])
      invariant forall n :: n in toolCounts <==> multiset(names[..i])[n] > 0
      invariant forall n :: n in toolCounts ==> toolCounts[n] == multiset(names[..i])[n]
    {
      CountStep(names, i);
      var toolName := history[i].toolName;
      var count := if toolName in toolCounts then toolCounts[toolName] else 0;
      if toolName !in toolCounts {
        order := order + [toolName];
      }
      CountsStep(toolCounts, names, i, count);
      toolCounts := toolCounts[toolName := count + 1];
    }
    assert names[..|history|] == names;
  }

  /** One more name: its first use is appended if new, and its count grows. */
  lemma CountStep(names: seq<string>, i: nat)
    requires i < |names|
    ensures FirstUseOrder(names[..i + 1])
         == if names[i] in names[..i] then FirstUseOrder(names[..i]) else FirstUseOrder(names[..i]) + [names[i]]
    ensures multiset(names[..i + 1]) == multiset(names[..i]) + multiset{names[i]}
  {
    assert names[..i + 1][..i] == names[..i];
    assert names[..i + 1] == names[..i] + [names[i]];
  }

  /** Counting one more name keeps the map equal to the multiset of the names
      counted so far. */
  lemma CountsStep(counts: map<string, nat>, names: seq<string>, i: nat, count: nat)
    requires i < |names|
    requires forall n :: n in counts <==> multiset(names[..i])[n] > 0
    requires forall n :: n in counts ==> counts[n] == multiset(names[..i])[n]
    requires multiset(names[..i + 1]) == multiset(names[..i]) + multiset{names[i]}
    requires count == if names[i] in counts then counts[names[i]] else 0
    ensures var next := counts[names[i] := count + 1];
      && (forall n :: n in next <==> multiset(names[..i + 1])[n] > 0)
      && (forall n :: n in next ==> next[n] == multiset(names[..i + 1])[n])
  {
  }

  /** The formatting loop of `get_tool_usage_summary`. */
  method FormatUsage(order: seq<string>, toolCounts: map<string, nat>, ghost names: seq<string>)
    returns (toolList: seq<string>)
    requires forall n :: n in order ==> n in toolCounts && toolCounts[n] == multiset(names)[n]
    ensures |toolList| == |order|
    ensures forall k :: 0 <= k < |order| ==> toolList[k] == UsageItem(order[k], multiset(names)[order[k]])
  {
    toolList := [];
    for j := 0 to |order|
      invariant |toolList| == j
      invariant forall k :: 0 <= k < j ==> toolList[k] == UsageItem(order[k], multiset(names)[order[k]])
    {
      var count := toolCounts[order[j]];
      if count == 1 {
        toolList := toolList + [order[j] + " (1 time)"];
      } else {
        toolList := toolList + [order[j] + " (" + NatToDecimal(count) + " times)"];
      }
    }
  }

  // ---------------------------------------------------------------------------
  // Usage summary

  function ToolNames(history: seq<HistoryRecord>): (ns: seq<string>)
    ensures |ns| == |history|
    ensures forall i :: 0 <= i < |history| ==> ns[i] == history[i].toolName
  {
    seq(|history|, i requires 0 <= i < |history| => history[i].toolName)
  }

  /** The distinct names in order of first appearance, as a dict's keys are. */
  function FirstUseOrder(ns: seq<string>): (r: seq<string>)
    ensures forall n :: n in r <==> n in ns
    ensures forall i, j :: 0 <= i < j < |r| ==> r[i] != r[j]
  {
    if ns == [] then []
    else
      var init := FirstUseOrder(ns[..|ns| - 1]);
      assert ns == ns[..|ns| - 1] + [ns[|ns| - 1]];
      if ns[|ns| - 1] in init then init else init + [ns[|ns| - 1]]
  }

  /** The index of the first occurrence of `n` in `ns`. */
  function FirstIndex(ns: seq<string>, n: string): (k: nat)
    requires n in ns
    ensures k < |ns| && ns[k] == n
    ensures forall j :: 0 <= j < k ==> ns[j] != n
  {
    if ns[0] == n then 0 else 1 + FirstIndex(ns[1..], n)
  }

  /** Appending a name leaves the first occurrence of an earlier name where it was. */
  lemma FirstIndexAppend(init: seq<string>, y: string, n: string)
    requires n in init
    ensures FirstIndex(init + [y], n) == FirstIndex(init, n)
  {
    var k := FirstIndex(init, n);
    var m := FirstIndex(init + [y], n);
    assert (init + [y])[k] == n;
  }

  /** The names come in the order of their first use: a name listed earlier was
      first used earlier. */
  lemma {:induction false} FirstUseOrderIsFirstUse(ns: seq<string>, i: nat, j: nat)
    requires i < j < |FirstUseOrder(ns)|
    ensures FirstIndex(ns, FirstUseOrder(ns)[i]) < FirstIndex(ns, FirstUseOrder(ns)[j])
  {
    var init := ns[..|ns| - 1];
    var y := ns[|ns| - 1];
    assert ns == init + [y];
    var r0 := FirstUseOrder(init);
    var r := FirstUseOrder(ns);
    if j < |r0| {
      assert r[i] == r0[i] && r[j] == r0[j];
      FirstUseOrderIsFirstUse(init, i, j);
      FirstIndexAppend(init, y, r0[i]);
      FirstIndexAppend(init, y, r0[j]);
    } else {
      assert y !in init && r[j] == y && r[i] == r0[i];
      FirstIndexAppend(init, y, r0[i]);
      assert FirstIndex(ns, y) == |init| by {
        assert forall k :: 0 <= k < |init| ==> ns[k] == init[k];
      }
    }
  }

  /** One summary item: "name (1 time)" or "name (N times)". */
  function UsageItem(name: string, count: nat): string {
    if count == 1 then name + " (1 time)" else name + " (" + NatToDecimal(count) + " times)"
  }

  /** The summary text for a history: the "no calls" line exactly for an empty
      history, otherwise a "Tools used: " list. */
  function UsageSummary(history: seq<HistoryRecord>): (r: string)
    ensures r == "No tool calls were made." <==> history == []
    ensures history != [] ==> StartsWith(r, "Tools used: ")
  {
    if history == [] then "No tool calls were made."
    else
      var names := ToolNames(history);
      var order := FirstUseOrder(names);
      var r := "Tools used: " + Join(", ", UsageItems(order, names));
      assert r[0] != "No tool calls were made."[0];
      r
  }

  /** One item per name of `order`, with its number of occurrences in `names`. */
  function UsageItems(order: seq<string>, names: seq<string>): (items: seq<string>)
    ensures |items| == |order|
    ensures forall k :: 0 <= k < |order| ==> items[k] == UsageItem(order[k], multiset(names)[order[k]])
  {
    seq(|order|, k requires 0 <= k < |order| => UsageItem(order[k], multiset(names)[order[k]]))
  }

  /** The sum over the names in `d` of how often each occurs in `ns`. */
  function CountSum(d: seq<string>, ns: seq<string>): nat {
    if d == [] then 0 else CountSum(d[..|d| - 1], ns) + multiset(ns)[d[|d| - 1]]
  }

  lemma {:induction false} CountSumAppend(d: seq<string>, ns: seq<string>, x: string)
    requires forall i, j :: 0 <= i < j < |d| ==> d[i] != d[j]
    ensures CountSum(d, ns + [x]) == CountSum(d, ns) + (if x in d then 1 else 0)
  {
    if d != [] {
      var init := d[..|d| - 1];
      CountSumAppend(init, ns, x);
      assert x in d <==> x in init || x == d[|d| - 1];
      assert x == d[|d| - 1] ==> x !in init;
    }
  }

  lemma {:induction false} CountSumCovers(d: seq<string>, ns: seq<string>)
    requires forall i, j :: 0 <= i < j < |d| ==> d[i] != d[j]
    requires forall n :: n in ns ==> n in d
    ensures CountSum(d, ns) == |ns|
  {
    if ns == [] {
      CountSumEmpty(d);
    } else {
      var init := ns[..|ns| - 1];
      assert ns == init + [ns[|ns| - 1]];
      CountSumCovers(d, init);
      CountSumAppend(d, init, ns[|ns| - 1]);
    }
  }

  lemma {:induction false} CountSumEmpty(d: seq<string>)
    ensures CountSum(d, []) == 0
  {
    if d != [] {
      CountSumEmpty(d[..|d| - 1]);
    }
  }

  /** The per-name counts the summary lists add up to the number of recorded
      calls, each name appears once, and every recorded name appears. */
  lemma UsageCountsSumToHistory(history: seq<HistoryRecord>)
    ensures var names := ToolNames(history);
      var order := FirstUseOrder(names);
      && CountSum(order, names) == |history|
      && (forall i, j :: 0 <= i < j < |order| ==> order[i] != order[j])
      && (forall i :: 0 <= i < |history| ==> history[i].toolName in order)
  {
    var names := ToolNames(history);
    CountSumCovers(FirstUseOrder(names), names);
    forall i | 0 <= i < |history|
      ensures history[i].toolName in FirstUseOrder(names)
    {
      assert names[i] in names;
    }
  }

  /** When every call names a registered tool that returns, every call is
      recorded: the history, and with it the counter, grows past
      `tool_call_limit` without complaint. */
  lemma {:induction false} AllSucceedingCallsRecorded(toolMap: map<string, Tool>, invoke: (Tool, Args) -> Invocation,
                                                      calls: seq<ToolCall>)
    requires forall i :: 0 <= i < |calls| ==>
      calls[i].name.Some? && calls[i].name.value != "" && calls[i].name.value in toolMap &&
      invoke(toolMap[calls[i].name.value], calls[i].args.GetOr(map[])).Returned?
    ensures |Recorded(toolMap, invoke, calls)| == |calls|
  {
    if calls != [] {
      AllSucceedingCallsRecorded(toolMap, invoke, calls[..|calls| - 1]);
      RecordedIffInvoked(toolMap, invoke, calls[|calls| - 1]);
    }
  }
}
