/**
 What the Responses stream means to a client, for every list of upstream chunks: exactly one
 completion, agreeing with every delta sent before it and with everything received.
 */
module ResponsesLaws {
  import opened Wrappers
  import opened Ordering
  import opened Text
  import opened OpenAiChunks
  import opened ResponsesEvents
  import opened ResponsesConvert

  // ---------------------------------------------------------------- converter and client agree

  function ToolOf(tc: ToolCall): Tool {
    Tool(tc.callId, tc.name, tc.args, tc.outputIndex)
  }

  ghost predicate ToolsMatch(order: seq<int>, calls: map<int, ToolCall>, tools: seq<Tool>) {
    && |tools| == |order|
    && (forall k | 0 <= k < |order| :: order[k] in calls && calls[order[k]].id == k
          && tools[k] == ToolOf(calls[order[k]]))
  }

  ghost predicate Matches(st: State, c: Client) {
    && Valid(st)
    && c.Listening? && c.created == st.started
    && c.message == (if st.textStarted then Some(st.text) else None)
    && (!st.textStarted ==> st.text == "")
    && ToolsMatch(st.order, st.calls, c.tools)
    && (!st.started ==> c == NEW_CLIENT)
  }

  lemma TextMatches(st: State, c: Client, t: string)
    requires Matches(st, c) && st.started
    ensures var (st', es) := AddText(st, t); Matches(st', FeedAll(c, es))
  {
    if t != "" {
      if st.textStarted {
        FeedOne(c, TextDelta(0, t));
      } else {
        FeedAppend(c, [MessageAdded(0), PartAdded(0)], [TextDelta(0, t)]);
        FeedTwo(c, MessageAdded(0), PartAdded(0));
        FeedOne(c.(message := Some("")), TextDelta(0, t));
        assert "" + t == t;
      }
    }
  }

  lemma Rank(st: State, c: Client, index: int) returns (k: nat)
    requires Matches(st, c) && index in st.calls
    ensures k < |st.order| && st.order[k] == index && st.calls[index].id == k
  {
    assert index in st.order;
    k :| k < |st.order| && st.order[k] == index;
  }

  lemma StartValid(st: State, d: ToolDelta)
    requires Valid(st) && d.index !in st.calls
    ensures Valid(StartTool(st, d).0)
  {
  }

  lemma KnownInOrder(st: State)
    requires Valid(st)
    ensures forall k | 0 <= k < |st.order| :: st.order[k] in st.order && st.order[k] in st.calls
  {
  }

  lemma StartMatches(st: State, c: Client, d: ToolDelta)
    requires Matches(st, c) && st.started && d.index !in st.calls
    ensures var (st', es) := StartTool(st, d); Matches(st', FeedAll(c, es)) && d.index in st'.calls
  {
    StartValid(st, d);
    hide Enumerates, FeedAll;
    var (st', es) := StartTool(st, d);
    FeedOne(c, es[0]);
    var c' := Feed(c, es[0]);
    assert forall k | 0 <= k < |st.order| :: st.order[k] in st.order by { KnownInOrder(st); }
  }


  lemma ArgsMatch(st: State, c: Client, index: int, args: string)
    requires Matches(st, c) && st.started && index in st.calls
    ensures var (st', es) := AddArgs(st, index, args); Matches(st', FeedAll(c, es))
  {
    var k := Rank(st, c, index);
    var (st', es) := AddArgs(st, index, args);
    FeedOne(c, es[0]);
    var c' := Feed(c, es[0]);
    assert forall j | 0 <= j < |st.order| && j != k :: st.order[j] != index;
  }

  lemma ToolMatches(st: State, c: Client, d: ToolDelta)
    requires Matches(st, c) && st.started
    ensures var (st', es) := AddTool(st, d); Matches(st', FeedAll(c, es)) && st'.started
  {
    hide Matches, StartTool, FeedAll;
    MatchesValid(st, c);
    var (st1, es) := if d.index in st.toolStarted then (st, []) else StartTool(st, d);
    if d.index in st.toolStarted { FeedNothing(c); } else { StartMatches(st, c, d); StartKeeps(st, d); }
    MatchesValid(st1, FeedAll(c, es));
    if d.args != "" {
      ArgsMatch(st1, FeedAll(c, es), d.index, d.args);
      FeedAppend(c, es, AddArgs(st1, d.index, d.args).1);
    }
  }

  lemma StartKeeps(st: State, d: ToolDelta)
    ensures StartTool(st, d).0.started == st.started && d.index in StartTool(st, d).0.calls
  {
  }

  lemma FeedNothing(c: Client)
    ensures FeedAll(c, []) == c
  {
  }

  lemma MatchesValid(st: State, c: Client)
    requires Matches(st, c)
    ensures Valid(st)
  {
  }

  lemma {:induction false} ToolsAllMatch(st: State, c: Client, ds: seq<ToolDelta>)
    requires Matches(st, c) && st.started
    ensures var (st', es) := AddTools(st, ds); Matches(st', FeedAll(c, es)) && st'.started
  {
    hide Matches, FeedAll, AddTool;
    MatchesValid(st, c);
    FeedNothing(c);
    if ds != [] {
      var init, d := ds[..|ds| - 1], ds[|ds| - 1];
      ToolsAllMatch(st, c, init);
      var (st1, es) := AddTools(st, init);
      ToolMatches(st1, FeedAll(c, es), d);
      FeedAppend(c, es, AddTool(st1, d).1);
    }
  }

  /** Closing events repeat what the client knows: it accepts them and learns nothing. */
  lemma TextClosingAccepted(st: State, c: Client)
    requires Matches(st, c)
    ensures FeedAll(c, TextClosing(st)) == c
  {
    if st.textStarted {
      var es := [TextDone(0, st.text), PartDone(0, st.text)];
      assert TextClosing(st) == es + [ItemDone(0, MessageItem(st.text))];
      FeedAppend(c, es, [ItemDone(0, MessageItem(st.text))]);
      FeedTwo(c, TextDone(0, st.text), PartDone(0, st.text));
      FeedOne(c, ItemDone(0, MessageItem(st.text)));
    }
  }

  lemma ToolClosingAccepted(c: Client, tc: ToolCall)
    requires c.Listening? && tc.id < |c.tools| && c.tools[tc.id] == ToolOf(tc)
    ensures FeedAll(c, ToolClosing(tc)) == c
  {
    FeedTwo(c, ArgsDone(tc.outputIndex, tc.id, tc.args),
            ItemDone(tc.outputIndex, FunctionCall(tc.id, tc.callId, tc.name, tc.args)));
  }

  lemma {:induction false} ToolsClosingAccepted(st: State, c: Client, indexes: seq<int>)
    requires Matches(st, c) && forall i <- indexes :: i in st.calls
    ensures FeedAll(c, ToolsClosing(st, indexes)) == c
  {
    hide Feed, ToolClosing;
    if indexes != [] {
      var init, last := indexes[..|indexes| - 1], indexes[|indexes| - 1];
      assert last in indexes;
      ToolsClosingAccepted(st, c, init);
      var k := Rank(st, c, last);
      var tc := st.calls[last];
      FeedAppend(c, ToolsClosing(st, init), ToolClosing(tc));
      ToolClosingAccepted(c, tc);
    }
  }


  lemma CompleteServes(st: State, c: Client)
    requires Matches(st, c)
    ensures FeedAll(c, Complete(st).1) == Served(ResponseOf(st), c.tools)
  {
    FeedOne(c, Completed(ResponseOf(st)));
    assert CallItems(st) == ToolItems(c.tools) by {
      forall k | 0 <= k < |st.order| ensures CallItems(st)[k] == ToolItems(c.tools)[k] {}
    }
    if !st.textStarted {
      assert [] + CallItems(st) == CallItems(st);
      if st.order == [] { assert [MessageItem("")] + ToolItems(c.tools) == [MessageItem("")]; }
    }
  }

  /** The client after some chunks: served if the converter has finished, else in step with it. */
  ghost predicate InStep(st: State, c: Client) {
    && Valid(st)
    && if st.finished then
         c.Served? && c.response == ResponseOf(st) && ToolsMatch(st.order, st.calls, c.announced)
       else Matches(st, c)
  }

  lemma ChoiceInStep(st: State, c: Client, choice: Choice)
    requires Matches(st, c) && st.started && !st.finished
    ensures var (st', es) := ConvertChoice(st, choice);
            InStep(st', FeedAll(c, es)) && st'.started && !st'.finished
  {
    hide AddText, AddTools, TextClosing, ToolsClosing, FeedAll, Sorted;
    TextMatches(st, c, choice.content);
    var (st1, es) := AddText(st, choice.content);
    TextKeeps(st, choice.content);
    var c1 := FeedAll(c, es);
    ToolsAllMatch(st1, c1, choice.toolCalls);
    ToolsKeep(st1, choice.toolCalls);
    var (st2, fs) := AddTools(st1, choice.toolCalls);
    FeedAppend(c, es, fs);
    if choice.finishReason != "" {
      var c2 := FeedAll(c, es + fs);
      TextClosingAccepted(st2, c2);
      ToolsClosingAccepted(st2, c2, Sorted(st2.toolStarted));
      FeedAppend(c, es + fs, TextClosing(st2));
      FeedAppend(c, es + fs + TextClosing(st2), ToolsClosing(st2, Sorted(st2.toolStarted)));
    }
  }

  lemma TextKeeps(st: State, t: string)
    ensures var st' := AddText(st, t).0;
            st' == st.(textStarted := st.textStarted || t != "", text := st.text + t)
  {
    assert st.text + "" == st.text;
  }

  lemma ToolKeeps(st: State, d: ToolDelta)
    requires Valid(st)
    ensures var st' := AddTool(st, d).0;
            st' == st.(order := st'.order, calls := st'.calls, toolStarted := st'.toolStarted,
                       generated := st'.generated)
  {
    hide Valid;
  }

  /** What adding tools does not touch. */
  lemma {:induction false} ToolsKeep(st: State, ds: seq<ToolDelta>)
    requires Valid(st)
    ensures var st' := AddTools(st, ds).0;
            st' == st.(order := st'.order, calls := st'.calls, toolStarted := st'.toolStarted,
                       generated := st'.generated)
  {
    hide AddTool, Valid;
    if ds != [] {
      ToolsKeep(st, ds[..|ds| - 1]);
      ToolKeeps(AddTools(st, ds[..|ds| - 1]).0, ds[|ds| - 1]);
    }
  }

  lemma UsageInStep(order: SetOrder, st: State, c: Client, hasUsage: bool)
    requires Matches(st, c) && st.started && !st.finished
    ensures var (st', es) := ConvertUsage(order, st, hasUsage);
            InStep(st', FeedAll(c, es)) && st'.started
  {
    hide TextClosing, ToolsClosing, FeedAll;
    FeedNothing(c);
    if st.pendingFinish {
      CompleteServes(st.(pendingFinish := false), c);
    } else if hasUsage {
      var indexes := order(st.toolStarted);
      TextClosingAccepted(st, c);
      ToolsClosingAccepted(st, c, indexes);
      CompleteServes(st, c);
      FeedAppend(c, TextClosing(st), ToolsClosing(st, indexes));
      FeedAppend(c, TextClosing(st) + ToolsClosing(st, indexes), Complete(st).1);
    }
  }

  lemma ChunkInStep(order: SetOrder, st: State, c: Client, chunk: Chunk)
    requires InStep(st, c)
    ensures var (st', es) := Convert(order, st, chunk); InStep(st', FeedAll(c, es))
  {
    hide ConvertUsage, ConvertChoice, FeedAll;
    FeedNothing(c);
    if !st.finished {
      var st1 := st.(usage := if chunk.usage.Some? then chunk.usage.value else st.usage, started := true);
      var created := if st.started then [] else [Created];
      FeedOne(c, Created);
      var c1 := FeedAll(c, created);
      assert Matches(st1, c1);
      if chunk.choices == [] {
        UsageInStep(order, st1, c1, chunk.usage.Some?);
        FeedAppend(c, created, ConvertUsage(order, st1, chunk.usage.Some?).1);
      } else {
        ChoiceInStep(st1, c1, chunk.choices[0]);
        FeedAppend(c, created, ConvertChoice(st1, chunk.choices[0]).1);
      }
    }
  }

  lemma {:induction false} RunInStep(order: SetOrder, cs: seq<Chunk>)
    ensures var (st, es) := ConvertAll(order, cs); InStep(st, FeedAll(NEW_CLIENT, es))
  {
    hide Convert, FeedAll, InStep;
    if cs == [] {
      FeedNothing(NEW_CLIENT);
      NewInStep();
    } else {
      var init, c := cs[..|cs| - 1], cs[|cs| - 1];
      RunInStep(order, init);
      var (st, es) := ConvertAll(order, init);
      ChunkInStep(order, st, FeedAll(NEW_CLIENT, es), c);
      FeedAppend(NEW_CLIENT, es, Convert(order, st, c).1);
    }
  }

  lemma NewInStep()
    ensures InStep(NEW_STATE, NEW_CLIENT)
  {
  }

  function ClientOf(order: SetOrder, cs: seq<Chunk>, fails: bool): Client {
    FeedAll(NEW_CLIENT, StreamEvents(order, cs, fails))
  }

  /** Whatever the chunks, and whether the upstream ends or fails, the client is served: it has
      accepted every event, the completion repeats exactly the deltas sent before it, and it is
      the one completion and the last event. */
  lemma ServedOnce(order: SetOrder, cs: seq<Chunk>, fails: bool)
    ensures var client, es, st := ClientOf(order, cs, fails), StreamEvents(order, cs, fails), ConvertAll(order, cs).0;
            && client.Served? && client.response == ResponseOf(st) && ToolsMatch(st.order, st.calls, client.announced)
            && es != [] && es[|es| - 1] == Completed(client.response)
            && (forall k | 0 <= k < |es| - 1 :: !es[k].Completed?)
  {
    RunInStep(order, cs);
    var (st, es) := ConvertAll(order, cs);
    var c := FeedAll(NEW_CLIENT, es);
    hide ConvertAll, FeedAll, TextClosing, ResponseOf;
    FeedAppend(NEW_CLIENT, es, Closing(st, fails));
    if st.finished {
      FeedNothing(c);
    } else {
      CompleteServes(st, c);
      TextClosingAccepted(st, c);
      FeedAppend(c, TextClosing(st), Complete(st).1);
    }
    ServedByLast(StreamEvents(order, cs, fails));
  }

  // ---------------------------------------------------------------- the reference

  /** Chunk c, after the chunks `earlier`, makes the converter complete the response. */
  predicate EndsAfter(earlier: seq<Chunk>, c: Chunk) {
    c.choices == [] && (c.usage.Some? || LastFinish(earlier) != "")
  }

  predicate Ended(cs: seq<Chunk>) {
    cs != [] && EndsAfter(cs[..|cs| - 1], cs[|cs| - 1])
  }

  /** The chunks up to and including the one that completes the response. */
  function Consumed(cs: seq<Chunk>): seq<Chunk> {
    if cs == [] then []
    else
      var init := Consumed(cs[..|cs| - 1]);
      if Ended(init) then init else init + [cs[|cs| - 1]]
  }

  function TextIn(cs: seq<Chunk>): string {
    Concat(Contents(cs))
  }

  /** Text had arrived when the tool index first appeared, or arrived in the same chunk. */
  predicate TextBefore(cs: seq<Chunk>, index: int)
    requires index in Tools(Deltas(cs))
  {
    var init := cs[..|cs| - 1];
    if index in Tools(Deltas(init)) then TextBefore(init, index) else TextIn(cs) != ""
  }

  /** The output index under which a tool is announced. */
  function IndexOf(cs: seq<Chunk>, index: int): int
    requires index in Tools(Deltas(cs))
  {
    (if TextBefore(cs, index) then 1 else 0) + index
  }

  function ExpectedCall(ds: seq<ToolDelta>, k: nat): Item
    requires k < |Tools(ds)|
  {
    assert Tools(ds)[k] in Tools(ds);
    FunctionCall(k, IdOf(ds, Tools(ds)[k]), FirstOf(ds, Tools(ds)[k]).name, ArgsOf(ds, Tools(ds)[k]))
  }

  function ExpectedCalls(ds: seq<ToolDelta>): seq<Item> {
    seq(|Tools(ds)|, k requires 0 <= k < |Tools(ds)| => ExpectedCall(ds, k))
  }

  /** The response for a list of chunks, collected without any streaming: all the text, if
      there was any or nothing else, then the tool calls in order of first appearance. */
  function Expected(cs: seq<Chunk>): Response {
    var ds := Deltas(cs);
    Response((if TextIn(cs) != "" || Tools(ds) == [] then [MessageItem(TextIn(cs))] else []) + ExpectedCalls(ds),
             if LastFinish(cs) == "length" then IncompleteStatus else CompletedStatus,
             if LastUsage(cs).Some? then LastUsage(cs).value else Usage(0, 0, 0))
  }

  // ---------------------------------------------------------------- the state reflects the reference

  ghost predicate CallReflects(tc: ToolCall, ds: seq<ToolDelta>, i: int) {
    i in Tools(ds) && tc.callId == IdOf(ds, i) && tc.name == FirstOf(ds, i).name && tc.args == ArgsOf(ds, i)
  }

  ghost predicate ToolsReflect(st: State, ds: seq<ToolDelta>) {
    && Valid(st)
    && st.order == Tools(ds) && st.generated == Unnamed(ds)
    && (forall i <- st.calls :: CallReflects(st.calls[i], ds, i))
  }

  lemma SeenReflects(st: State, ds: seq<ToolDelta>, d: ToolDelta)
    requires ToolsReflect(st, ds) && d.index in st.calls
    ensures ToolsReflect(AddTool(st, d).0, ds + [d])
  {
    hide Tools, ArgsOf, FirstOf, IdOf, Unnamed;
    ToolsSnoc(ds, d);
    var st' := AddTool(st, d).0;
    assert CallReflects(st.calls[d.index], ds, d.index);
    assert st.calls[d.index].args + "" == st.calls[d.index].args;
    forall i <- st'.calls ensures CallReflects(st'.calls[i], ds + [d], i) {
      assert CallReflects(st.calls[i], ds, i);
    }
  }

  lemma NewCall(st: State, d: ToolDelta)
    requires Valid(st) && d.index !in st.calls
    ensures var st' := AddTool(st, d).0;
            && st'.order == st.order + [d.index]
            && d.index in st'.calls && st'.calls == st.calls[d.index := st'.calls[d.index]]
            && st'.calls[d.index].callId == (if d.id != "" then Given(d.id) else Generated(st.generated))
            && st'.calls[d.index].name == d.name && st'.calls[d.index].args == "" + d.args
            && st'.generated == st.generated + (if d.id == "" then 1 else 0)
  {
    hide Enumerates, StartTool, Valid;
    NewStart(st, d);
    NoNewArgs(StartTool(st, d).0, d);
  }

  lemma NewStart(st: State, d: ToolDelta)
    requires Valid(st) && d.index !in st.calls
    ensures d.index !in st.toolStarted
    ensures var st' := StartTool(st, d).0;
            && st'.order == st.order + [d.index]
            && d.index in st'.calls && st'.calls == st.calls[d.index := st'.calls[d.index]]
            && st'.calls[d.index].callId == (if d.id != "" then Given(d.id) else Generated(st.generated))
            && st'.calls[d.index].name == d.name && st'.calls[d.index].args == ""
            && st'.generated == st.generated + (if d.id == "" then 1 else 0)
  {
    hide Enumerates;
  }

  /** Arguments change the arguments only. */
  lemma NoNewArgs(st: State, d: ToolDelta)
    requires d.index in st.calls
    ensures var st' := AddArgs(st, d.index, d.args).0;
            && st'.order == st.order && st'.generated == st.generated
            && st'.calls == st.calls[d.index := st.calls[d.index].(args := st.calls[d.index].args + d.args)]
    ensures st.calls[d.index].args == "" ==> d.args == "" ==> st.calls[d.index].args == "" + d.args
  {
    assert "" + "" == "";
  }

  lemma CallGrows(tc: ToolCall, ds: seq<ToolDelta>, d: ToolDelta, i: int)
    requires CallReflects(tc, ds, i) && i != d.index
    ensures CallReflects(tc, ds + [d], i)
  {
    hide Tools, ArgsOf, FirstOf, IdOf, Unnamed;
    ToolsSnoc(ds, d);
  }

  lemma CallStarts(tc: ToolCall, ds: seq<ToolDelta>, d: ToolDelta)
    requires d.index !in Tools(ds)
    requires tc.callId == (if d.id != "" then Given(d.id) else Generated(Unnamed(ds))) && tc.name == d.name
             && tc.args == "" + d.args
    ensures CallReflects(tc, ds + [d], d.index)
  {
    hide Tools, ArgsOf, FirstOf, IdOf, Unnamed;
    ToolsSnoc(ds, d);
    UnseenNoArgs(ds, d.index);
  }

  lemma NewReflects(st: State, ds: seq<ToolDelta>, d: ToolDelta)
    requires ToolsReflect(st, ds) && d.index !in st.calls
    ensures ToolsReflect(AddTool(st, d).0, ds + [d])
  {
    ReflectsValid(st, ds);
    hide Tools, ArgsOf, FirstOf, IdOf, Unnamed, Valid, AddTool, CallReflects;
    ToolsSnoc(ds, d);
    var st' := AddTool(st, d).0;
    NewCall(st, d);
    CallStarts(st'.calls[d.index], ds, d);
    forall i <- st'.calls ensures CallReflects(st'.calls[i], ds + [d], i) {
      if i != d.index { CallGrows(st.calls[i], ds, d, i); }
    }
  }

  lemma ToolReflects(st: State, ds: seq<ToolDelta>, d: ToolDelta)
    requires ToolsReflect(st, ds)
    ensures ToolsReflect(AddTool(st, d).0, ds + [d])
  {
    if d.index in st.calls { SeenReflects(st, ds, d); } else { NewReflects(st, ds, d); }
  }

  /** The output index of a tool is fixed when it is announced. */
  ghost predicate Indexed(st: State, st': State) {
    && st.calls.Keys <= st'.calls.Keys
    && forall i <- st'.calls :: st'.calls[i].outputIndex
         == if i in st.calls then st.calls[i].outputIndex else (if st.textStarted then 1 else 0) + i
  }

  lemma StartIndexed(st: State, d: ToolDelta)
    requires d.index !in st.calls
    ensures Indexed(st, StartTool(st, d).0) && d.index in StartTool(st, d).0.calls
  {
  }

  lemma ArgsIndexed(st: State, st': State, d: ToolDelta)
    requires Indexed(st, st') && d.index in st'.calls
    ensures Indexed(st, AddArgs(st', d.index, d.args).0)
  {
  }

  lemma ToolIndexed(st: State, d: ToolDelta)
    requires Valid(st)
    ensures Indexed(st, AddTool(st, d).0)
  {
    hide StartTool, AddArgs, Indexed;
    var st1 := if d.index in st.toolStarted then st else StartTool(st, d).0;
    if d.index in st.toolStarted { IndexedSame(st); } else { StartIndexed(st, d); }
    if d.args != "" { ArgsIndexed(st, st1, d); }
  }

  lemma IndexedSame(st: State)
    ensures Indexed(st, st)
  {
  }

  lemma UnseenNoArgs(ds: seq<ToolDelta>, index: int)
    ensures index !in Tools(ds) ==> ArgsOf(ds, index) == ""
  {
    if index !in Tools(ds) { UnseenHasNoArgs(ds, index); }
  }

  lemma {:induction false} ToolsAllReflect(st: State, ds: seq<ToolDelta>, more: seq<ToolDelta>)
    requires ToolsReflect(st, ds)
    ensures ToolsReflect(AddTools(st, more).0, ds + more) && Indexed(st, AddTools(st, more).0)
  {
    hide Tools, ArgsOf, FirstOf, IdOf, Unnamed, AddTool, ToolsReflect;
    ReflectsValid(st, ds);
    if more == [] {
      assert ds + more == ds;
    } else {
      var init, d := more[..|more| - 1], more[|more| - 1];
      assert ds + more == (ds + init) + [d];
      ToolsAllReflect(st, ds, init);
      ToolsKeep(st, init);
      ReflectsValid(AddTools(st, init).0, ds + init);
      ToolReflects(AddTools(st, init).0, ds + init, d);
      ToolIndexed(AddTools(st, init).0, d);
    }
  }

  lemma ReflectsValid(st: State, ds: seq<ToolDelta>)
    requires ToolsReflect(st, ds)
    ensures Valid(st)
    ensures forall i :: i in st.calls <==> i in Tools(ds)
  {
  }

  ghost predicate ItemsReflect(st: State, cs: seq<Chunk>) {
    && ToolsReflect(st, Deltas(cs))
    && (forall i <- st.calls :: i in Tools(Deltas(cs)) && st.calls[i].outputIndex == IndexOf(cs, i))
    && st.text == TextIn(cs) && st.textStarted == (TextIn(cs) != "")
  }

  /** The converter's state is what the reference says about the chunks consumed. */
  ghost predicate Reflects(st: State, cs: seq<Chunk>) {
    && ItemsReflect(st, cs)
    && st.usage == (if LastUsage(cs).Some? then LastUsage(cs).value else Usage(0, 0, 0))
    && st.finishReason == LastFinish(cs)
    && (!st.finished ==> st.pendingFinish == (LastFinish(cs) != ""))
  }

  lemma ReferenceSnoc(init: seq<Chunk>, c: Chunk)
    ensures var cs := init + [c];
            && TextIn(cs) == TextIn(init) + (if c.choices == [] then "" else c.choices[0].content)
            && Deltas(cs) == Deltas(init) + (if c.choices == [] then [] else c.choices[0].toolCalls)
            && LastUsage(cs) == (if c.usage.Some? then c.usage else LastUsage(init))
            && LastFinish(cs) == (if c.choices != [] && c.choices[0].finishReason != "" then c.choices[0].finishReason
                                  else LastFinish(init))
            && Ended(cs) == EndsAfter(init, c)
            && Consumed(cs) == (if Ended(Consumed(init)) then Consumed(init) else Consumed(init) + [c])
  {
    hide Tools, Concat;
    var cs := init + [c];
    assert cs[..|init|] == init;
    assert Concat(Contents(init)) + "" == Concat(Contents(init));
    if c.choices != [] { ConcatSnoc(Contents(init), c.choices[0].content); }
  }

  lemma IndexSnoc(init: seq<Chunk>, c: Chunk)
    ensures forall i <- Tools(Deltas(init + [c])) ::
              IndexOf(init + [c], i) == if i in Tools(Deltas(init)) then IndexOf(init, i)
                                        else (if TextIn(init + [c]) != "" then 1 else 0) + i
  {
    hide Tools, Deltas, TextIn;
    assert (init + [c])[..|init|] == init;
  }

  /** Text and tools of a choice, before its finish reason is looked at. */
  lemma PartsReflect(st: State, init: seq<Chunk>, c: Chunk)
    requires ItemsReflect(st, init) && c.choices != []
    ensures var st1 := AddText(st, c.choices[0].content).0;
            ItemsReflect(AddTools(st1, c.choices[0].toolCalls).0, init + [c])
  {
    hide Tools, AddText, AddTools, ToolsReflect, IndexOf, LastUsage, LastFinish, TextIn, Deltas, Valid;
    var choice := c.choices[0];
    ReferenceSnoc(init, c);
    IndexSnoc(init, c);
    ReflectsValid(st, Deltas(init));
    TextKeeps(st, choice.content);
    var st1 := AddText(st, choice.content).0;
    SameTools(st, st1, Deltas(init));
    ReflectsValid(st1, Deltas(init));
    ToolsKeep(st1, choice.toolCalls);
    ToolsAllReflect(st1, Deltas(init), choice.toolCalls);
    ReflectsValid(AddTools(st1, choice.toolCalls).0, Deltas(init + [c]));
  }

  lemma SameTools(st: State, st': State, ds: seq<ToolDelta>)
    requires ToolsReflect(st, ds)
    requires st'.order == st.order && st'.calls == st.calls && st'.toolStarted == st.toolStarted
             && st'.generated == st.generated
    ensures ToolsReflect(st', ds)
  {
  }

  lemma SameItems(st: State, st': State, cs: seq<Chunk>)
    requires ItemsReflect(st, cs)
    requires st' == st.(started := st'.started, usage := st'.usage, finished := st'.finished,
                        finishReason := st'.finishReason, pendingFinish := st'.pendingFinish)
    ensures Valid(st') && ItemsReflect(st', cs)
  {
    SameTools(st, st', Deltas(cs));
    ReflectsValid(st', Deltas(cs));
  }

  lemma ChoiceReflects(st: State, init: seq<Chunk>, c: Chunk)
    requires Reflects(st, init) && !st.finished && c.choices != []
    ensures var st1 := st.(usage := if c.usage.Some? then c.usage.value else st.usage, started := true);
            var st' := ConvertChoice(st1, c.choices[0]).0;
            Reflects(st', init + [c]) && !st'.finished
  {
    hide Tools, AddText, AddTools, TextClosing, ToolsClosing, Sorted, LastUsage, LastFinish, ItemsReflect, Valid;
    var choice := c.choices[0];
    ReferenceSnoc(init, c);
    var st1 := st.(usage := if c.usage.Some? then c.usage.value else st.usage, started := true);
    SameItems(st, st1, init);
    PartsReflect(st1, init, c);
    TextKeeps(st1, choice.content);
    var st2 := AddText(st1, choice.content).0;
    TextValid(st1, choice.content);
    ToolsKeep(st2, choice.toolCalls);
    var st3 := AddTools(st2, choice.toolCalls).0;
    SameItems(st3, st3.(finishReason := choice.finishReason, pendingFinish := true), init + [c]);
  }

  lemma TextValid(st: State, t: string)
    requires Valid(st)
    ensures Valid(AddText(st, t).0)
  {
  }

  lemma ChunkReflects(order: SetOrder, st: State, init: seq<Chunk>, c: Chunk)
    requires Reflects(st, init) && !st.finished
    ensures Valid(st)
    ensures var st' := Convert(order, st, c).0; Reflects(st', init + [c]) && st'.finished == EndsAfter(init, c)
  {
    SameItems(st, st, init);
    hide Tools, ConvertChoice, TextClosing, ToolsClosing, LastUsage, LastFinish, ItemsReflect, Valid;
    ReferenceSnoc(init, c);
    if c.choices == [] {
      var st' := Convert(order, st, c).0;
      assert Deltas(init) + [] == Deltas(init);
      assert TextIn(init) + "" == TextIn(init);
      SameItems(st, st', init);
      ItemsOfUsage(st', init, c);
    } else {
      ChoiceReflects(st, init, c);
    }
  }

  lemma ItemsOfUsage(st: State, init: seq<Chunk>, c: Chunk)
    requires ItemsReflect(st, init) && c.choices == []
    ensures ItemsReflect(st, init + [c])
  {
    hide Tools, IndexOf, TextIn, Deltas;
    ReferenceSnoc(init, c);
    IndexSnoc(init, c);
    assert Deltas(init) + [] == Deltas(init);
    assert TextIn(init) + "" == TextIn(init);
  }

  lemma {:induction false} RunReflects(order: SetOrder, cs: seq<Chunk>)
    ensures var st := ConvertAll(order, cs).0;
            Reflects(st, Consumed(cs)) && st.finished == Ended(Consumed(cs)) && (!st.finished ==> Consumed(cs) == cs)
  {
    hide Convert, Reflects, EndsAfter, Ended;
    if cs == [] {
      NothingReflects();
    } else {
      var init, c := cs[..|cs| - 1], cs[|cs| - 1];
      assert init + [c] == cs;
      RunReflects(order, init);
      ReferenceSnoc(init, c);
      var st := ConvertAll(order, init).0;
      if st.finished { ConvertFinished(order, st, c); } else { ChunkReflects(order, st, init, c); }
    }
  }

  lemma NothingReflects()
    ensures Reflects(NEW_STATE, []) && !Ended([])
  {
  }

  lemma ConvertFinished(order: SetOrder, st: State, c: Chunk)
    requires Valid(st) && st.finished
    ensures Convert(order, st, c) == (st, [])
  {
  }

  // ---------------------------------------------------------------- the main results

  lemma ResponseReflects(st: State, cs: seq<Chunk>, tools: seq<Tool>)
    requires Reflects(st, cs) && ToolsMatch(st.order, st.calls, tools)
    ensures ResponseOf(st) == Expected(cs)
    ensures |tools| == |Tools(Deltas(cs))|
            && forall k | 0 <= k < |tools| ::
                 Tools(Deltas(cs))[k] in Tools(Deltas(cs)) && tools[k].outputIndex == IndexOf(cs, Tools(Deltas(cs))[k])
  {
    hide IndexOf, LastUsage, LastFinish, TextIn, Deltas, IdOf, FirstOf, ArgsOf, Unnamed, Tools;
    var ts := Tools(Deltas(cs));
    forall k | 0 <= k < |ts|
      ensures CallItems(st)[k] == ExpectedCall(Deltas(cs), k) && tools[k].outputIndex == IndexOf(cs, ts[k])
    {
      assert ts[k] in st.calls;
      assert CallReflects(st.calls[ts[k]], Deltas(cs), ts[k]);
    }
    assert CallItems(st) == ExpectedCalls(Deltas(cs));
    if ts == [] {
      assert [MessageItem(TextIn(cs))] + ExpectedCalls(Deltas(cs)) == [MessageItem(TextIn(cs))];
      assert [] + CallItems(st) == [];
      assert [MessageItem(TextIn(cs))] + CallItems(st) == [MessageItem(TextIn(cs))];
    }
  }

  /** Over every run, the upstream failing or not, the stream ends in exactly one completion,
      and that completion is the response collected directly from the chunks consumed. */
  lemma ResponsesStreamMeaning(order: SetOrder, cs: seq<Chunk>, fails: bool)
    ensures var client, es, P := ClientOf(order, cs, fails), StreamEvents(order, cs, fails), Consumed(cs);
            && client.Served? && client.response == Expected(P)
            && es != [] && es[|es| - 1] == Completed(Expected(P)) && (forall k | 0 <= k < |es| - 1 :: !es[k].Completed?)
            && |client.announced| == |Tools(Deltas(P))|
            && (forall k | 0 <= k < |client.announced| ::
                  && Tools(Deltas(P))[k] in Tools(Deltas(P))
                  && client.announced[k].outputIndex == IndexOf(P, Tools(Deltas(P))[k]))
  {
    hide ConvertAll, FeedAll, ResponseOf, Reflects, Expected, IndexOf, Tools, Deltas, Consumed, ToolsMatch,
      StreamEvents;
    ServedOnce(order, cs, fails);
    RunReflects(order, cs);
    ResponseReflects(ConvertAll(order, cs).0, Consumed(cs), ClientOf(order, cs, fails).announced);
  }

  // ---------------------------------------------------------------- output indexes

  /** Where the k-th tool call stands in the final output. */
  function PositionOf(cs: seq<Chunk>, k: nat): nat {
    (if TextIn(cs) != "" then 1 else 0) + k
  }

  /** The k-th tool to appear has index k, or k + 1 if text starts only after it. */
  predicate Aligned(cs: seq<Chunk>) {
    var ts := Tools(Deltas(cs));
    forall k | 0 <= k < |ts| ::
      ts[k] in ts && ts[k] == k + if TextIn(cs) != "" && !TextBefore(cs, ts[k]) then 1 else 0
  }

  lemma CallAt(cs: seq<Chunk>, k: nat)
    requires k < |Tools(Deltas(cs))|
    ensures PositionOf(cs, k) < |Expected(cs).output|
            && Expected(cs).output[PositionOf(cs, k)] == ExpectedCall(Deltas(cs), k)
    ensures TextIn(cs) != "" ==> Expected(cs).output[0] == MessageItem(TextIn(cs))
  {
    hide Tools, Deltas, TextIn, LastUsage, LastFinish, ExpectedCall;
  }

  lemma IndexAligned(cs: seq<Chunk>, k: nat)
    requires k < |Tools(Deltas(cs))| && Tools(Deltas(cs))[k] in Tools(Deltas(cs))
    ensures IndexOf(cs, Tools(Deltas(cs))[k]) == PositionOf(cs, k)
            <==> Tools(Deltas(cs))[k] == k + if TextIn(cs) != "" && !TextBefore(cs, Tools(Deltas(cs))[k]) then 1 else 0
  {
    hide Tools, Deltas;
    if TextBefore(cs, Tools(Deltas(cs))[k]) { TextBeforeIsText(cs, Tools(Deltas(cs))[k]); }
  }

  lemma TextStays(init: seq<Chunk>, c: Chunk)
    requires TextIn(init) != ""
    ensures TextIn(init + [c]) != ""
  {
    hide TextIn, Deltas, LastUsage, LastFinish, Consumed, Ended, EndsAfter;
    ReferenceSnoc(init, c);
  }

  lemma {:induction false} TextBeforeIsText(cs: seq<Chunk>, index: int)
    requires index in Tools(Deltas(cs)) && TextBefore(cs, index)
    ensures TextIn(cs) != ""
  {
    var init, c := cs[..|cs| - 1], cs[|cs| - 1];
    hide Tools, Deltas, TextIn, LastUsage, LastFinish, Consumed, Ended, EndsAfter;
    if index in Tools(Deltas(init)) {
      TextBeforeIsText(init, index);
      assert init + [c] == cs;
      TextStays(init, c);
    }
  }

  /** Every tool call is announced under the index at which it stands in the final output
      exactly when the tool indexes received are aligned; otherwise two items can share one. */
  lemma OutputIndexExact(order: SetOrder, cs: seq<Chunk>, fails: bool)
    ensures var client, P := ClientOf(order, cs, fails), Consumed(cs);
            && client.Served? && |client.announced| == |Tools(Deltas(P))|
            && (forall k | 0 <= k < |client.announced| ::
                  && PositionOf(P, k) < |client.response.output|
                  && client.response.output[PositionOf(P, k)] == ExpectedCall(Deltas(P), k))
            && ((forall k | 0 <= k < |client.announced| :: client.announced[k].outputIndex == PositionOf(P, k))
                <==> Aligned(P))
  {
    hide ClientOf, StreamEvents, Consumed, Expected, IndexOf, TextIn, TextBefore, Tools, Deltas, PositionOf,
      ExpectedCall;
    ResponsesStreamMeaning(order, cs, fails);
    var client, P := ClientOf(order, cs, fails), Consumed(cs);
    var ts := Tools(Deltas(P));
    forall k | 0 <= k < |ts|
      ensures ts[k] in ts && PositionOf(P, k) < |client.response.output|
              && client.response.output[PositionOf(P, k)] == ExpectedCall(Deltas(P), k)
      ensures client.announced[k].outputIndex == PositionOf(P, k)
              <==> ts[k] == k + if TextIn(P) != "" && !TextBefore(P, ts[k]) then 1 else 0
    {
      CallAt(P, k);
      IndexAligned(P, k);
    }
  }

  const TOOL_FIRST := ToolDelta(0, "a", "f", "")

  /** A stream that starts with a tool call and then sends text. */
  const TOOL_THEN_TEXT: seq<Chunk> :=
    [Single("", [TOOL_FIRST], "")] + [Single("x", [], "")]

  /** The tool call is announced under output index 0, which is also the index of the text, and
      ends up second in the output. */
  lemma ToolBeforeTextCollides(order: SetOrder)
    ensures var client := ClientOf(order, TOOL_THEN_TEXT, false);
            && client.Served? && |client.announced| == 1 && client.announced[0].outputIndex == 0
            && client.response.output == [MessageItem("x"), FunctionCall(0, Given("a"), "f", "")]
  {
    ToolThenText(TOOL_FIRST, "x");
    OneTool();
    hide ClientOf, StreamEvents, Consumed, TextIn, Deltas, Tools, IndexOf, LastUsage, LastFinish, ExpectedCall;
    var cs := TOOL_THEN_TEXT;
    ResponsesStreamMeaning(order, cs, false);
    assert ExpectedCalls(Deltas(cs)) == [FunctionCall(0, Given("a"), "f", "")];
    var client := ClientOf(order, cs, false);
    assert client.announced[0].outputIndex == IndexOf(cs, 0);
  }

  /** A tool call, then text: the tool is announced as if there were no text. */
  lemma ToolThenText(d: ToolDelta, t: string)
    requires t != ""
    ensures var cs := [Single("", [d], "")] + [Single(t, [], "")];
            && Consumed(cs) == cs && Deltas(cs) == [d] && TextIn(cs) == t
            && d.index in Tools(Deltas(cs)) && IndexOf(cs, d.index) == d.index
  {
    hide TextIn, Deltas, Consumed, IndexOf, LastUsage, LastFinish, Tools;
    var none: seq<Chunk>, first, last := [], Single("", [d], ""), Single(t, [], "");
    assert none + [first] == [first] && "" + "" == "" && [] + [d] == [d];
    Nothing();
    ToolsSnoc([], d);
    ReferenceSnoc(none, first);
    IndexSnoc(none, first);
    ReferenceSnoc([first], last);
    IndexSnoc([first], last);
    assert "" + t == t && [d] + [] == [d];
  }

  lemma Nothing()
    ensures TextIn([]) == "" && Deltas([]) == [] && Tools([]) == [] && LastFinish([]) == "" && Consumed([]) == []
  {
  }

  lemma OneTool()
    ensures Tools([TOOL_FIRST]) == [0]
    ensures ExpectedCall([TOOL_FIRST], 0) == FunctionCall(0, Given("a"), "f", "")
  {
    var none: seq<ToolDelta> := [];
    ToolsSnoc(none, TOOL_FIRST);
    assert none + [TOOL_FIRST] == [TOOL_FIRST];
    assert Tools(none) == [] && Unnamed(none) == 0 && ArgsOf(none, 0) == "";
    hide Tools, Unnamed, ArgsOf, IdOf, FirstOf;
    assert Tools([TOOL_FIRST]) == [] + [0] == [0];
    assert "" + "" == "";
  }
}
