/** The events of the Responses API stream, and a client that checks and collects them. */
module ResponsesEvents {
  import opened Wrappers
  import opened OpenAiChunks

  /** Items of the final response. Item ids of tool calls (`fc_` and a uuid) are modelled by the
      number of tool calls announced before. */
  datatype Item =
    | MessageItem(text: string)
    | FunctionCall(itemId: nat, callId: CallId, name: string, args: string)

  datatype Status = CompletedStatus | IncompleteStatus

  datatype Response = Response(output: seq<Item>, status: Status, usage: Usage)

  datatype Event =
    | Created
    | MessageAdded(outputIndex: int)
    | PartAdded(outputIndex: int)
    | TextDelta(outputIndex: int, delta: string)
    | TextDone(outputIndex: int, text: string)
    | PartDone(outputIndex: int, text: string)
    | ToolAdded(outputIndex: int, itemId: nat, callId: CallId, name: string)
    | ArgsDelta(outputIndex: int, itemId: nat, callId: CallId, delta: string)
    | ArgsDone(outputIndex: int, itemId: nat, args: string)
    | ItemDone(outputIndex: int, item: Item)
    | Completed(response: Response)

  /** A tool call as a client knows it. */
  datatype Tool = Tool(callId: CallId, name: string, args: string, outputIndex: int)

  datatype Client =
    | Listening(created: bool, message: Option<string>, tools: seq<Tool>)
    | Served(response: Response, announced: seq<Tool>)
    | Rejected

  const NEW_CLIENT := Listening(false, None, [])

  function ToolItems(tools: seq<Tool>): seq<Item> {
    seq(|tools|, k requires 0 <= k < |tools| => FunctionCall(k, tools[k].callId, tools[k].name, tools[k].args))
  }

  /** The output a client expects, from the deltas it has seen: the message first if there was
      any text, or if there is nothing else, then the tool calls in order of announcement. */
  function OutputOf(message: Option<string>, tools: seq<Tool>): seq<Item> {
    (match message
     case Some(text) => [MessageItem(text)]
     case None => if tools == [] then [MessageItem("")] else [])
    + ToolItems(tools)
  }

  predicate Knows(c: Client, itemId: nat, outputIndex: int) {
    c.Listening? && itemId < |c.tools| && c.tools[itemId].outputIndex == outputIndex
  }

  /** The client checks what events say: it rejects an event for an item it does not know, a
      `done` event that does not repeat exactly the deltas received before it, a completion that
      does not, a late `response.created`, and any event after the completion. Whether items are
      created, closed and completed in the right order is for the life cycle to say. */
  function Feed(c: Client, e: Event): Client {
    if !c.Listening? then Rejected
    else match e
      case Created => if c == NEW_CLIENT then c.(created := true) else Rejected
      case MessageAdded(i) => if c.message == None && i == 0 then c.(message := Some("")) else Rejected
      case PartAdded(i) => if c.message == Some("") && i == 0 then c else Rejected
      case TextDelta(i, t) =>
        if c.message.Some? && i == 0 then c.(message := Some(c.message.value + t)) else Rejected
      case TextDone(i, t) => if c.message == Some(t) && i == 0 then c else Rejected
      case PartDone(i, t) => if c.message == Some(t) && i == 0 then c else Rejected
      case ToolAdded(i, id, callId, name) =>
        if id == |c.tools| then c.(tools := c.tools + [Tool(callId, name, "", i)]) else Rejected
      case ArgsDelta(i, id, callId, t) =>
        if Knows(c, id, i) && c.tools[id].callId == callId then
          c.(tools := c.tools[id := c.tools[id].(args := c.tools[id].args + t)])
        else Rejected
      case ArgsDone(i, id, args) => if Knows(c, id, i) && c.tools[id].args == args then c else Rejected
      case ItemDone(i, MessageItem(t)) => if c.message == Some(t) && i == 0 then c else Rejected
      case ItemDone(i, FunctionCall(id, callId, name, args)) =>
        if Knows(c, id, i) && c.tools[id] == Tool(callId, name, args, i) then c else Rejected
      case Completed(r) => if r.output == OutputOf(c.message, c.tools) then Served(r, c.tools) else Rejected
  }

  function FeedAll(c: Client, es: seq<Event>): Client {
    if es == [] then c else Feed(FeedAll(c, es[..|es| - 1]), es[|es| - 1])
  }

  lemma {:induction false} FeedAppend(c: Client, xs: seq<Event>, ys: seq<Event>)
    ensures FeedAll(c, xs + ys) == FeedAll(FeedAll(c, xs), ys)
  {
    if ys == [] {
      assert xs + ys == xs;
    } else {
      assert (xs + ys)[..|xs + ys| - 1] == xs + ys[..|ys| - 1];
      FeedAppend(c, xs, ys[..|ys| - 1]);
    }
  }

  lemma FeedOne(c: Client, e: Event)
    ensures FeedAll(c, [e]) == Feed(c, e)
  {
    assert [e][..0] == [];
  }

  lemma FeedTwo(c: Client, e: Event, f: Event)
    ensures FeedAll(c, [e, f]) == Feed(Feed(c, e), f)
  {
    assert [e, f] == [e] + [f];
    FeedAppend(c, [e], [f]);
    FeedOne(c, e);
    FeedOne(Feed(c, e), f);
  }

  /** A client that has been served was served by the last event and by no other: exactly one
      `response.completed` was sent, and nothing after it. */
  lemma {:induction false} ServedByLast(es: seq<Event>)
    requires FeedAll(NEW_CLIENT, es).Served?
    ensures es != [] && es[|es| - 1] == Completed(FeedAll(NEW_CLIENT, es).response)
    ensures forall k | 0 <= k < |es| - 1 :: !es[k].Completed?
  {
    var c := FeedAll(NEW_CLIENT, es[..|es| - 1]);
    NotServedYet(es[..|es| - 1]);
  }

  lemma {:induction false} NotServedYet(es: seq<Event>)
    requires FeedAll(NEW_CLIENT, es).Listening?
    ensures forall k | 0 <= k < |es| :: !es[k].Completed?
  {
    if es != [] { NotServedYet(es[..|es| - 1]); }
  }
}

/**
 `ResponsesStreamConverter` (services/responses_convert.py) and the loop that drives it
 (`_stream_responses_sse`, controllers/responses.py).
 */
module ResponsesConvert {
  import opened Wrappers
  import opened Ordering
  import opened OpenAiChunks
  import opened ResponsesEvents

  datatype ToolCall = ToolCall(id: nat, callId: CallId, name: string, args: string, outputIndex: int)

  /** `calls` with `order` is Python's insertion-ordered dictionary `_tool_calls`. */
  datatype State = State(
    started: bool,
    textStarted: bool,
    text: string,
    order: seq<int>,
    calls: map<int, ToolCall>,
    toolStarted: set<int>,
    finished: bool,
    pendingFinish: bool,
    finishReason: string,
    usage: Usage,
    generated: nat)

  const NEW_STATE := State(false, false, "", [], map[], {}, false, false, "", Usage(0, 0, 0), 0)

  /** The order in which the interpreter happens to iterate over a set: any order will do. */
  type SetOrder = f: set<int> -> seq<int> | forall s :: Enumerates(f(s), s) ghost witness s => SomeOrder(s)

  // ---------------------------------------------------------------- specification of one chunk

  function AddText(st: State, t: string): (State, seq<Event>) {
    if t == "" then (st, [])
    else
      (st.(textStarted := true, text := st.text + t),
       (if st.textStarted then [] else [MessageAdded(0), PartAdded(0)]) + [TextDelta(0, t)])
  }

  function StartTool(st: State, d: ToolDelta): (State, seq<Event>) {
    var outputIndex := (if st.textStarted then 1 else 0) + d.index;
    var callId := if d.id != "" then Given(d.id) else Generated(st.generated);
    (st.(order := if d.index in st.calls then st.order else st.order + [d.index],
         calls := st.calls[d.index := ToolCall(|st.order|, callId, d.name, "", outputIndex)],
         toolStarted := st.toolStarted + {d.index},
         generated := st.generated + if d.id == "" then 1 else 0),
     [ToolAdded(outputIndex, |st.order|, callId, d.name)])
  }

  function AddArgs(st: State, index: int, args: string): (State, seq<Event>)
    requires index in st.calls
  {
    var tc := st.calls[index];
    (st.(calls := st.calls[index := tc.(args := tc.args + args)]),
     [ArgsDelta(tc.outputIndex, tc.id, tc.callId, args)])
  }

  /** Every started tool has an entry. */
  predicate Valid(st: State) {
    st.toolStarted == st.calls.Keys && Enumerates(st.order, st.calls.Keys)
  }

  function AddTool(st: State, d: ToolDelta): (r: (State, seq<Event>))
    requires Valid(st)
    ensures Valid(r.0)
  {
    var (st1, es) := if d.index in st.toolStarted then (st, []) else StartTool(st, d);
    if d.args == "" then (st1, es)
    else
      var (st2, fs) := AddArgs(st1, d.index, d.args);
      (st2, es + fs)
  }

  function AddTools(st: State, ds: seq<ToolDelta>): (r: (State, seq<Event>))
    requires Valid(st)
    ensures Valid(r.0)
  {
    if ds == [] then (st, [])
    else
      var (st1, es) := AddTools(st, ds[..|ds| - 1]);
      var (st2, fs) := AddTool(st1, ds[|ds| - 1]);
      (st2, es + fs)
  }

  function TextClosing(st: State): seq<Event> {
    if st.textStarted then [TextDone(0, st.text), PartDone(0, st.text), ItemDone(0, MessageItem(st.text))] else []
  }

  function ToolClosing(tc: ToolCall): seq<Event> {
    [ArgsDone(tc.outputIndex, tc.id, tc.args),
     ItemDone(tc.outputIndex, FunctionCall(tc.id, tc.callId, tc.name, tc.args))]
  }

  function ToolsClosing(st: State, indexes: seq<int>): seq<Event>
    requires forall i <- indexes :: i in st.calls
  {
    if indexes == [] then []
    else
      var last := indexes[|indexes| - 1];
      assert last in indexes;
      ToolsClosing(st, indexes[..|indexes| - 1]) + ToolClosing(st.calls[last])
  }

  function ItemOf(st: State, index: int): Item
    requires index in st.calls.Keys
  {
    var tc := st.calls[index];
    FunctionCall(tc.id, tc.callId, tc.name, tc.args)
  }

  function CallItems(st: State): seq<Item>
    requires Valid(st)
  {
    seq(|st.order|, k requires 0 <= k < |st.order| => ItemOf(st, st.order[k]))
  }

  function ResponseOf(st: State): Response
    requires Valid(st)
  {
    var output := (if st.textStarted then [MessageItem(st.text)] else []) + CallItems(st);
    Response(if output == [] then [MessageItem(st.text)] else output,
             if st.finishReason == "length" then IncompleteStatus else CompletedStatus,
             st.usage)
  }

  function Complete(st: State): (State, seq<Event>)
    requires Valid(st)
  {
    (st.(finished := true), [Completed(ResponseOf(st))])
  }

  /** `convert_chunk` on a chunk without choices, usage already noted. */
  function ConvertUsage(order: SetOrder, st: State, hasUsage: bool): (State, seq<Event>)
    requires Valid(st)
  {
    if st.pendingFinish then Complete(st.(pendingFinish := false))
    else if hasUsage then
      (Complete(st).0, TextClosing(st) + ToolsClosing(st, order(st.toolStarted)) + Complete(st).1)
    else (st, [])
  }

  function ConvertChoice(st: State, c: Choice): (r: (State, seq<Event>))
    requires Valid(st)
    ensures Valid(r.0)
  {
    var (st1, es) := AddText(st, c.content);
    var (st2, fs) := AddTools(st1, c.toolCalls);
    if c.finishReason == "" then (st2, es + fs)
    else
      (st2.(finishReason := c.finishReason, pendingFinish := true),
       es + fs + TextClosing(st2) + ToolsClosing(st2, Sorted(st2.toolStarted)))
  }

  function Convert(order: SetOrder, st: State, c: Chunk): (r: (State, seq<Event>))
    requires Valid(st)
    ensures Valid(r.0)
  {
    if st.finished then (st, [])
    else
      var st1 := st.(usage := if c.usage.Some? then c.usage.value else st.usage, started := true);
      var created := if st.started then [] else [Created];
      var (st2, es) := if c.choices == [] then ConvertUsage(order, st1, c.usage.Some?)
                       else ConvertChoice(st1, c.choices[0]);
      (st2, created + es)
  }

  function ConvertAll(order: SetOrder, cs: seq<Chunk>): (r: (State, seq<Event>))
    ensures Valid(r.0)
  {
    if cs == [] then (NEW_STATE, [])
    else
      var (st, es) := ConvertAll(order, cs[..|cs| - 1]);
      var (st', fs) := Convert(order, st, cs[|cs| - 1]);
      (st', es + fs)
  }

  /** The closing rule of the controller, for a stream that ended (`fails` false) or raised. */
  function Closing(st: State, fails: bool): seq<Event>
    requires Valid(st)
  {
    if st.finished then []
    else if fails || st.pendingFinish then Complete(st).1
    else TextClosing(st) + Complete(st).1
  }

  /** Everything sent to the client for an upstream that delivers `cs` and then ends or fails. */
  function StreamEvents(order: SetOrder, cs: seq<Chunk>, fails: bool): seq<Event> {
    var (st, es) := ConvertAll(order, cs);
    es + Closing(st, fails)
  }

  // ---------------------------------------------------------------- the converter

  class ResponsesStreamConverter {
    const setOrder: SetOrder
    var started: bool
    var textStarted: bool
    var textContent: string
    var toolOrder: seq<int>
    var toolCalls: map<int, ToolCall>
    var toolStarted: set<int>
    var finished: bool
    var pendingFinish: bool
    var finishReason: string
    var usage: Usage
    var generated: nat

    function Value(): State
      reads this
    {
      State(started, textStarted, textContent, toolOrder, toolCalls, toolStarted, finished, pendingFinish,
            finishReason, usage, generated)
    }

    constructor (setOrder: SetOrder)
      ensures Value() == NEW_STATE && this.setOrder == setOrder
    {
      this.setOrder := setOrder;
      started, textStarted, textContent, finished, pendingFinish := false, false, "", false, false;
      toolOrder, toolCalls, toolStarted := [], map[], {};
      finishReason, usage, generated := "", Usage(0, 0, 0), 0;
    }

    method EmitTextDelta(text: string) returns (events: seq<Event>)
      requires text != ""
      modifies this`textStarted, this`textContent
      ensures (Value(), events) == AddText(old(Value()), text)
    {
      events := [];
      if !textStarted {
        textStarted := true;
        events := [MessageAdded(0), PartAdded(0)];
      }
      textContent := textContent + text;
      events := events + [TextDelta(0, text)];
    }

    method EmitTextDone() returns (events: seq<Event>)
      requires textStarted
      ensures events == TextClosing(Value())
    {
      events := [TextDone(0, textContent), PartDone(0, textContent), ItemDone(0, MessageItem(textContent))];
    }

    method EmitToolAdded(index: int, callId: CallId, name: string) returns (events: seq<Event>)
      modifies this`toolStarted, this`toolCalls, this`toolOrder
      ensures Value() == old(Value()).(
                order := if index in old(toolCalls) then old(toolOrder) else old(toolOrder) + [index],
                calls := old(toolCalls)[index := ToolCall(|old(toolOrder)|, callId, name, "",
                                                          (if textStarted then 1 else 0) + index)],
                toolStarted := old(toolStarted) + {index})
      ensures events == [ToolAdded((if textStarted then 1 else 0) + index, |old(toolOrder)|, callId, name)]
    {
      toolStarted := toolStarted + {index};
      var outputIndex := (if textStarted then 1 else 0) + index;
      var id := |toolOrder|;
      if index !in toolCalls {
        toolOrder := toolOrder + [index];
      }
      toolCalls := toolCalls[index := ToolCall(id, callId, name, "", outputIndex)];
      events := [ToolAdded(outputIndex, id, callId, name)];
    }

    method EmitToolArgsDelta(index: int, delta: string) returns (events: seq<Event>)
      requires index in toolCalls
      modifies this`toolCalls
      ensures (Value(), events) == AddArgs(old(Value()), index, delta)
    {
      var tc := toolCalls[index];
      toolCalls := toolCalls[index := tc.(args := tc.args + delta)];
      events := [ArgsDelta(tc.outputIndex, tc.id, tc.callId, delta)];
    }

    method EmitToolsDone(indexes: seq<int>) returns (events: seq<Event>)
      requires forall i <- indexes :: i in toolCalls
      ensures events == ToolsClosing(Value(), indexes)
    {
      events := [];
      for k := 0 to |indexes|
        invariant events == ToolsClosing(Value(), indexes[..k])
      {
        var index := indexes[k];
        assert index in indexes && index in toolCalls;
        var tc := toolCalls[index];
        assert indexes[..k + 1][..k] == indexes[..k];
        events := events + [ArgsDone(tc.outputIndex, tc.id, tc.args),
                            ItemDone(tc.outputIndex, FunctionCall(tc.id, tc.callId, tc.name, tc.args))];
      }
      assert indexes[..|indexes|] == indexes;
    }

    method EmitCompleted() returns (events: seq<Event>)
      requires Valid(Value())
      modifies this`finished
      ensures (Value(), events) == Complete(old(Value()))
    {
      finished := true;
      var output: seq<Item> := [];
      if textStarted {
        output := [MessageItem(textContent)];
      }
      ghost var head := output;
      for k := 0 to |toolOrder|
        invariant output == head + CallItems(Value())[..k]
      {
        var tc := toolCalls[toolOrder[k]];
        output := output + [FunctionCall(tc.id, tc.callId, tc.name, tc.args)];
        assert CallItems(Value())[..k + 1] == CallItems(Value())[..k] + [CallItems(Value())[k]];
      }
      assert CallItems(Value())[..|toolOrder|] == CallItems(Value()) == CallItems(old(Value()));
      if output == [] {
        output := [MessageItem(textContent)];
      }
      events := [Completed(Response(output, if finishReason == "length" then IncompleteStatus else CompletedStatus,
                                    usage))];
    }

    method ConvertToolCall(tc: ToolDelta) returns (events: seq<Event>)
      requires Valid(Value())
      modifies this`toolStarted, this`toolCalls, this`toolOrder, this`generated
      ensures (Value(), events) == AddTool(old(Value()), tc)
    {
      events := [];
      if tc.index !in toolStarted {
        var id := Given(tc.id);
        if tc.id == "" {
          id := Generated(generated);
          generated := generated + 1;
        }
        events := EmitToolAdded(tc.index, id, tc.name);
      }
      if tc.args != "" {
        var delta := EmitToolArgsDelta(tc.index, tc.args);
        events := events + delta;
      }
    }

    method ConvertToolCalls(tcs: seq<ToolDelta>) returns (events: seq<Event>)
      requires Valid(Value())
      modifies this`toolStarted, this`toolCalls, this`toolOrder, this`generated
      ensures (Value(), events) == AddTools(old(Value()), tcs)
    {
      hide AddTool, Valid;
      events := [];
      for k := 0 to |tcs|
        invariant Valid(Value()) && (Value(), events) == AddTools(old(Value()), tcs[..k])
      {
        assert tcs[..k + 1][..k] == tcs[..k];
        var more := ConvertToolCall(tcs[k]);
        events := events + more;
      }
      assert tcs[..|tcs|] == tcs;
    }

    /** Converts one OpenAI streaming chunk to Responses events. */
    method ConvertChunk(chunk: Chunk) returns (events: seq<Event>)
      requires Valid(Value())
      modifies this
      ensures Valid(Value()) && (Value(), events) == Convert(setOrder, old(Value()), chunk)
    {
      hide ConvertUsage, ConvertChoice;
      if finished {
        return [];
      }
      events := [];
      if chunk.usage.Some? {
        usage := chunk.usage.value;
      }
      if !started {
        started := true;
        events := [Created];
      }
      var more: seq<Event>;
      if chunk.choices == [] {
        more := ConvertUsageChunk(chunk.usage.Some?);
      } else {
        more := ConvertChoiceChunk(chunk.choices[0]);
      }
      events := events + more;
    }

    /** The first choice of a chunk: text, tool calls, and closing the items on a finish reason. */
    method ConvertChoiceChunk(choice: Choice) returns (events: seq<Event>)
      requires Valid(Value())
      modifies this
      ensures Valid(Value()) && (Value(), events) == ConvertChoice(old(Value()), choice)
    {
      hide AddTools, TextClosing, ToolsClosing, Sorted;
      events := [];
      if choice.content != "" {
        events := EmitTextDelta(choice.content);
      }
      var tools := ConvertToolCalls(choice.toolCalls);
      events := events + tools;
      if choice.finishReason != "" {
        var closing := CloseItems();
        assert events + closing == events + TextClosing(Value()) + ToolsClosing(Value(), Sorted(toolStarted));
        events := events + closing;
        finishReason := choice.finishReason;
        pendingFinish := true;
      }
    }

    /** A chunk without choices: the deferred completion, or a close without a finish reason. */
    method ConvertUsageChunk(hasUsage: bool) returns (events: seq<Event>)
      requires Valid(Value())
      modifies this`pendingFinish, this`finished
      ensures Valid(Value()) && (Value(), events) == ConvertUsage(setOrder, old(Value()), hasUsage)
    {
      hide ResponseOf;
      events := [];
      if pendingFinish {
        pendingFinish := false;
        events := EmitCompleted();
      } else if hasUsage {
        if textStarted {
          events := EmitTextDone();
        } else {
          NoTextClosing(Value());
        }
        var tools := EmitToolsDone(setOrder(toolStarted));
        var completed := EmitCompleted();
        events := events + tools + completed;
      }
    }

    /** On a finish reason: close the text, then the tools in ascending order. */
    method CloseItems() returns (events: seq<Event>)
      requires Valid(Value())
      ensures events == TextClosing(Value()) + ToolsClosing(Value(), Sorted(toolStarted))
    {
      events := [];
      if textStarted {
        events := EmitTextDone();
      } else {
        NoTextClosing(Value());
      }
      var tools := EmitToolsDone(Sorted(toolStarted));
      events := events + tools;
    }
  }

  lemma NoTextClosing(st: State)
    requires !st.textStarted
    ensures TextClosing(st) == []
  {
  }

  /** `_stream_responses_sse`: everything sent to the client when the upstream delivers the
      given chunks and then ends, or raises. */
  method StreamResponsesSse(setOrder: SetOrder, chunks: seq<Chunk>, upstreamFails: bool) returns (events: seq<Event>)
    ensures events == StreamEvents(setOrder, chunks, upstreamFails)
  {
    hide Convert, TextClosing, ResponseOf;
    var converter := new ResponsesStreamConverter(setOrder);
    events := [];
    for k := 0 to |chunks|
      invariant Valid(converter.Value())
      invariant (converter.Value(), events) == ConvertAll(setOrder, chunks[..k])
    {
      assert chunks[..k + 1][..k] == chunks[..k];
      var more := converter.ConvertChunk(chunks[k]);
      events := events + more;
    }
    assert chunks[..|chunks|] == chunks;
    ghost var sent := events;
    if !converter.finished {
      if upstreamFails || converter.pendingFinish {
        var completed := converter.EmitCompleted();
        events := events + completed;
      } else {
        var text: seq<Event> := [];
        if converter.textStarted {
          text := converter.EmitTextDone();
        } else {
          NoTextClosing(converter.Value());
        }
        var completed := converter.EmitCompleted();
        events := events + (text + completed);
      }
    }
  }
}
