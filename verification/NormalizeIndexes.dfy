/** Output indexes through both stages: when a tool block is announced where it ends up. */
module NormalizeIndexes {
  import opened Wrappers
  import opened OpenAiChunks
  import opened ResponsesEvents
  import opened ResponsesConvert
  import opened ResponsesLaws
  import opened NormalizeStream

  // ---------------------------------------------------------------- the condition on a message

  /** How many of the blocks are no tool calls. */
  function NonTools(parts: seq<Part>): nat {
    if parts == [] then 0
    else NonTools(parts[..|parts| - 1]) + if parts[|parts| - 1].ToolPart? then 0 else 1
  }

  /** Block p, if it is a tool call, has as many other blocks before it as the text item will need:
      one, if the text has still to come, else none. */
  predicate FitsIndex(parts: seq<Part>, p: nat)
    requires p < |parts|
  {
    parts[p].ToolPart? ==>
      NonTools(parts[..p]) == if TurnText(parts) != "" && TurnText(parts[..p]) == "" then 1 else 0
  }

  predicate TurnAligned(parts: seq<Part>) {
    forall p | 0 <= p < |parts| :: FitsIndex(parts, p)
  }

  // ---------------------------------------------------------------- the tool blocks in order

  function ToolPositions(parts: seq<Part>): seq<int> {
    if parts == [] then []
    else ToolPositions(parts[..|parts| - 1]) + if parts[|parts| - 1].ToolPart? then [|parts| - 1] else []
  }

  lemma {:induction false} ToolsOfParts(parts: seq<Part>)
    ensures Tools(PartsDeltas(parts)) == ToolPositions(parts)
  {
    hide Tools, IdOf, FirstOf, ArgsOf, Unnamed, PartDeltas;
    if parts == [] {
      NoParts();
      NothingCollected();
    } else {
      var i, init, p := |parts| - 1, parts[..|parts| - 1], parts[|parts| - 1];
      ToolsOfParts(init);
      CallsCollected(init);
      if p.ToolPart? {
        ToolPartCollected(PartsDeltas(init), i, p.id, p.name, p.fragments);
        UnfoldPart(i, p);
        assert PartsDeltas(parts) == PartsDeltas(init) + [ToolDelta(i, p.id, p.name, "")] + ArgsDeltas(i, p.fragments);
      } else {
        NoDeltas(i, p);
        assert PartsDeltas(init) + [] == PartsDeltas(init);
      }
    }
  }

  /** The k-th tool block has k tool blocks before it. */
  lemma {:induction false} PositionOfTool(parts: seq<Part>, k: nat)
    requires k < |ToolPositions(parts)|
    ensures var p := ToolPositions(parts)[k];
            0 <= p < |parts| && parts[p].ToolPart? && p == k + NonTools(parts[..p])
  {
    var n := |parts| - 1;
    var init := parts[..n];
    if k < |ToolPositions(init)| {
      PositionOfTool(init, k);
      assert init[..ToolPositions(init)[k]] == parts[..ToolPositions(init)[k]];
    } else {
      ToolsAndOthers(init);
    }
  }

  lemma {:induction false} ToolsAndOthers(parts: seq<Part>)
    ensures |ToolPositions(parts)| + NonTools(parts) == |parts|
  {
    if parts != [] { ToolsAndOthers(parts[..|parts| - 1]); }
  }

  lemma {:induction false} EveryTool(parts: seq<Part>, p: nat)
    requires p < |parts| && parts[p].ToolPart?
    ensures p in ToolPositions(parts)
  {
    if p < |parts| - 1 { EveryTool(parts[..|parts| - 1], p); }
  }

  // ---------------------------------------------------------------- the text before a tool block

  /** Whether text counts for a tool is settled by the chunk that announces it. */
  lemma {:induction false} TextBeforeAt(first: seq<Chunk>, c: Chunk, rest: seq<Chunk>, index: int)
    requires index !in Tools(Deltas(first)) && index in Tools(Deltas(first + [c]))
    ensures index in Tools(Deltas(first + [c] + rest))
    ensures TextBefore(first + [c] + rest, index) <==> TextIn(first + [c]) != ""
  {
    hide Tools, Deltas, TextIn;
    var cs := first + [c] + rest;
    if rest == [] {
      assert cs == first + [c];
      assert cs[..|cs| - 1] == first;
    } else {
      var init, last := rest[..|rest| - 1], rest[|rest| - 1];
      var before := first + [c] + init;
      assert cs == before + [last] && cs[..|cs| - 1] == before;
      TextBeforeAt(first, c, init, index);
      ReferenceSnoc(before, last);
      if last.choices != [] {
        SeenStays(Deltas(before), last.choices[0].toolCalls, index);
      } else {
        assert Deltas(before) + [] == Deltas(before);
      }
    }
  }

  lemma {:induction false} SeenStays(ds: seq<ToolDelta>, more: seq<ToolDelta>, index: int)
    requires index in Tools(ds)
    ensures index in Tools(ds + more)
  {
    if more == [] {
      assert ds + more == ds;
    } else {
      assert ds + more == (ds + more[..|more| - 1]) + [more[|more| - 1]];
      SeenStays(ds, more[..|more| - 1], index);
      ToolsSnoc(ds + more[..|more| - 1], more[|more| - 1]);
    }
  }

  lemma {:induction false} NormalizeMore(es: seq<Upstream>, more: seq<Upstream>) returns (rest: seq<Chunk>)
    ensures NormalizeAll(es + more).1 == NormalizeAll(es).1 + rest
  {
    hide Normalize;
    if more == [] {
      assert es + more == es;
      rest := [];
      assert NormalizeAll(es).1 + [] == NormalizeAll(es).1;
    } else {
      var init, e := more[..|more| - 1], more[|more| - 1];
      assert es + more == (es + init) + [e];
      rest := NormalizeMore(es, init);
      NormalizeSnoc(es + init, e);
      rest := rest + Normalize(NormalizeAll(es + init).0, e).1;
    }
  }

  /** The events of a message go through the start of every block. */
  lemma {:induction false} PartsThrough(start: seq<Upstream>, parts: seq<Part>, p: nat) returns (rest: seq<Upstream>)
    requires p < |parts|
    ensures start + PartsEvents(parts) == start + PartsEvents(parts[..p]) + [BlockStart(p, HeadOf(parts[p]))] + rest
  {
    hide FragmentEvents, PartsEvents, FragmentText, PartsDeltas, TurnText;
    var i, init, last := |parts| - 1, parts[..|parts| - 1], parts[|parts| - 1];
    PartsSnoc(start, parts);
    var tail := FragmentEvents(i, last, last.fragments) + [BlockStop(i)];
    if p == i {
      rest := tail;
    } else {
      assert init[..p] == parts[..p];
      var more := PartsThrough(start, init, p);
      rest := more + [BlockStart(i, HeadOf(last))] + tail;
    }
  }

  /** Text counts for a tool block exactly when a block before it brought some. */
  lemma TextBeforeTool(t: Turn, p: nat)
    requires p < |t.parts| && t.parts[p].ToolPart?
    ensures var cs := NormalizeAll(TurnEvents(t)).1;
            p in Tools(Deltas(cs)) && (TextBefore(cs, p) <==> TurnText(t.parts[..p]) != "")
  {
    hide NormalizeAll, PartsEvents, TextIn, Deltas, Tools, TurnText, PartsDeltas, LastUsage, LastFinish, Consumed,
      Ended, TextBefore;
    var parts, part := t.parts, t.parts[p];
    var start, before := [MessageStart(Some(t.inputTokens))], parts[..p];
    var es, head := start + PartsEvents(before), BlockStart(p, HeadOf(part));
    var tail := PartsThrough(start, parts, p);
    var ends := [MessageDelta(t.stopReason, Some(t.outputTokens)), MessageStop];
    assert TurnEvents(t) == (es + [head]) + (tail + ends);
    PartsCarried(t.inputTokens, before);
    NormalizeSnoc(es, head);
    var rest := NormalizeMore(es + [head], tail + ends);
    var cs, d := NormalizeAll(es).1, ToolDelta(p, part.id, part.name, "");
    CarryOne(cs, TurnText(before), PartsDeltas(before), "", [d]);
    assert TurnText(before) + "" == TurnText(before);
    CallsCollected(before);
    ToolsSnoc(PartsDeltas(before), d);
    TextBeforeAt(cs, Single("", [d], ""), rest, p);
  }

  // ---------------------------------------------------------------- both stages

  lemma AlignedExactly(t: Turn)
    ensures Aligned(NormalizeAll(TurnEvents(t)).1) <==> TurnAligned(t.parts)
  {
    hide NormalizeAll, TextIn, Deltas, Tools, TurnText, PartsDeltas, LastUsage, LastFinish, Consumed, TextBefore,
      TurnEvents, ToolPositions, NonTools;
    var cs, parts := NormalizeAll(TurnEvents(t)).1, t.parts;
    TurnCarried(t);
    ToolsOfParts(parts);
    var ts := Tools(Deltas(cs));
    forall k | 0 <= k < |ts|
      ensures 0 <= ts[k] < |parts| && parts[ts[k]].ToolPart? && ts[k] in ts
      ensures ts[k] == k + (if TextIn(cs) != "" && !TextBefore(cs, ts[k]) then 1 else 0) <==> FitsIndex(parts, ts[k])
    {
      PositionOfTool(parts, k);
      TextBeforeTool(t, ts[k]);
    }
    forall p | 0 <= p < |parts| && parts[p].ToolPart? ensures p in ts { EveryTool(parts, p); }
    if Aligned(cs) {
      forall p | 0 <= p < |parts| ensures FitsIndex(parts, p) {
        if parts[p].ToolPart? { var k :| 0 <= k < |ts| && ts[k] == p; }
      }
    } else {
      var k :| 0 <= k < |ts|
               && !(ts[k] in ts && ts[k] == k + if TextIn(cs) != "" && !TextBefore(cs, ts[k]) then 1 else 0);
      assert !FitsIndex(parts, ts[k]);
    }
  }

  /** Through both stages, every tool block of a message is announced under its position in the
      final output exactly when the message is aligned: without any text, no other block stands
      before a tool block; with text, exactly one does, and it is empty. */
  lemma TwoStageIndexes(order: SetOrder, t: Turn, es: seq<Upstream>)
    requires WithoutNoise(es) == TurnEvents(t)
    ensures var cs := NormalizeAll(es).1;
            var client := ClientOf(order, cs, false);
            && client.Served? && |client.announced| == |TurnCalls(t.parts)|
            && ((forall k | 0 <= k < |client.announced| :: client.announced[k].outputIndex == PositionOf(cs, k))
                <==> TurnAligned(t.parts))
  {
    hide NormalizeAll, ClientOf, Consumed, TextIn, Deltas, Tools, TurnText, TurnCalls, PartsDeltas, Aligned,
      TurnAligned, LastUsage, LastFinish, ExpectedCall, Expected;
    NoiseIgnored(es);
    TurnCarried(t);
    CallsCollected(t.parts);
    var cs := NormalizeAll(es).1;
    OutputIndexExact(order, cs, false);
    AlignedExactly(t);
    assert |ExpectedCalls(Deltas(cs))| == |Tools(Deltas(cs))|;
  }

  /** The ordinary shape, text and then a tool call: the call is announced under index 2 and ends
      up at position 1. */
  lemma TextThenToolMisplaced(order: SetOrder, usage: (int, int), stop: string)
    ensures var t := Turn(usage.0, [TextPart(["x"]), ToolPart("a", "f", [])], stop, usage.1);
            var cs := NormalizeAll(TurnEvents(t)).1;
            var client := ClientOf(order, cs, false);
            && client.Served? && |client.announced| == 1
            && client.announced[0].outputIndex == 2 && PositionOf(cs, 0) == 1
  {
    hide NormalizeAll, ClientOf, Consumed, Deltas, Tools, TurnCalls, PartsDeltas, LastUsage, LastFinish, ExpectedCall,
      Expected, TextBefore, TurnText, TextIn, ToolPositions, TurnEvents;
    var parts := [TextPart(["x"]), ToolPart("a", "f", [])];
    var t := Turn(usage.0, parts, stop, usage.1);
    var cs := NormalizeAll(TurnEvents(t)).1;
    TurnCarried(t);
    ToolsOfParts(parts);
    TextThenTool();
    TextBeforeTool(t, 1);
    ResponsesStreamMeaning(order, cs, false);
  }

  lemma TextThenTool()
    ensures var parts := [TextPart(["x"]), ToolPart("a", "f", [])];
            TurnText(parts) == "x" && TurnText(parts[..1]) == "x" && ToolPositions(parts) == [1]
  {
    var parts := [TextPart(["x"]), ToolPart("a", "f", [])];
    var none: seq<Part> := [];
    assert parts[..1] == [parts[0]] && parts[..1][..0] == none;
    assert ["x"][..0] == [] && "" + "x" == "x" && "x" + "" == "x";
    assert TurnText(none) == "" && ToolPositions(none) == [];
    assert TurnText(parts[..1]) == "x" && ToolPositions(parts[..1]) == [];
  }
}
