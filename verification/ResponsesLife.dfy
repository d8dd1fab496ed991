/**
 The life cycle of a Responses stream: `response.created` first, every item announced, then its
 deltas, then closed once, and the completion when nothing is open. The converter does not always
 keep to it; the main result says exactly when.
 */
module ResponsesLife {
  import opened Wrappers
  import opened Ordering
  import opened OpenAiChunks
  import opened ResponsesEvents
  import opened ResponsesConvert
  import opened ResponsesLaws

  // ---------------------------------------------------------------- the life cycle

  /** How far an item has come; `Said` and `Shown` lie between its closing events. */
  datatype Phase = Absent | Announced | Open | Said | Shown | Closed

  datatype Life = Going(created: bool, text: Phase, tools: seq<Phase>) | Finished | Broken

  const NEW_LIFE := Going(false, Absent, [])

  function TextFrom(l: Life, from: Phase, to: Phase): Life
    requires l.Going?
  {
    if l.text == from then l.(text := to) else Broken
  }

  function ToolFrom(l: Life, id: nat, from: Phase, to: Phase): Life
    requires l.Going?
  {
    if id < |l.tools| && l.tools[id] == from then l.(tools := l.tools[id := to]) else Broken
  }

  function Watch(l: Life, e: Event): Life {
    if !l.Going? then Broken
    else if !l.created then (if e.Created? && l == NEW_LIFE then l.(created := true) else Broken)
    else match e
      case Created => Broken
      case MessageAdded(_) => TextFrom(l, Absent, Announced)
      case PartAdded(_) => TextFrom(l, Announced, Open)
      case TextDelta(_, _) => TextFrom(l, Open, Open)
      case TextDone(_, _) => TextFrom(l, Open, Said)
      case PartDone(_, _) => TextFrom(l, Said, Shown)
      case ItemDone(_, MessageItem(_)) => TextFrom(l, Shown, Closed)
      case ToolAdded(_, id, _, _) => if id == |l.tools| then l.(tools := l.tools + [Open]) else Broken
      case ArgsDelta(_, id, _, _) => ToolFrom(l, id, Open, Open)
      case ArgsDone(_, id, _) => ToolFrom(l, id, Open, Said)
      case ItemDone(_, FunctionCall(id, _, _, _)) => ToolFrom(l, id, Said, Closed)
      case Completed(_) => if IsUnclosed(l) then Broken else Finished
  }

  /** Some item has been announced and not yet closed. */
  predicate IsUnclosed(l: Life) {
    l.Going? && (l.text !in {Absent, Closed} || exists k | 0 <= k < |l.tools| :: l.tools[k] != Closed)
  }

  predicate SomeClosed(l: Life) {
    l.Going? && (l.text == Closed || exists k | 0 <= k < |l.tools| :: l.tools[k] == Closed)
  }

  function WatchAll(l: Life, es: seq<Event>): Life {
    if es == [] then l else Watch(WatchAll(l, es[..|es| - 1]), es[|es| - 1])
  }

  lemma {:induction false} WatchAppend(l: Life, xs: seq<Event>, ys: seq<Event>)
    ensures WatchAll(l, xs + ys) == WatchAll(WatchAll(l, xs), ys)
  {
    hide Watch;
    if ys == [] {
      assert xs + ys == xs;
    } else {
      assert (xs + ys)[..|xs + ys| - 1] == xs + ys[..|ys| - 1];
      WatchAppend(l, xs, ys[..|ys| - 1]);
    }
  }

  lemma WatchOne(l: Life, e: Event)
    ensures WatchAll(l, [e]) == Watch(l, e)
  {
    assert [e][..0] == [];
  }

  lemma WatchTwo(l: Life, e: Event, f: Event)
    ensures WatchAll(l, [e, f]) == Watch(Watch(l, e), f)
  {
    assert [e, f] == [e] + [f];
    WatchAppend(l, [e], [f]);
    WatchOne(l, e);
    WatchOne(Watch(l, e), f);
  }

  lemma {:induction false} StaysBroken(es: seq<Event>)
    ensures WatchAll(Broken, es) == Broken
  {
    if es != [] { StaysBroken(es[..|es| - 1]); }
  }

  // ---------------------------------------------------------------- the condition, from the chunks alone

  predicate Finishes(c: Chunk) { c.choices != [] && c.choices[0].finishReason != "" }

  /** The chunk announces an item or adds to one. */
  predicate Brings(earlier: seq<Chunk>, c: Chunk) {
    c.choices != []
    && (c.choices[0].content != ""
        || exists d <- c.choices[0].toolCalls :: d.args != "" || d.index !in Tools(Deltas(earlier)))
  }

  predicate HasItems(cs: seq<Chunk>) { TextIn(cs) != "" || Tools(Deltas(cs)) != [] }

  /** A finish reason has come, with or after some item. */
  predicate Settled(cs: seq<Chunk>) {
    cs != [] && (Settled(cs[..|cs| - 1]) || (Finishes(cs[|cs| - 1]) && HasItems(cs)))
  }

  /** Once settled, no chunk brings anything more or finishes again. */
  predicate Quiet(cs: seq<Chunk>) {
    cs == []
    || (var init, c := cs[..|cs| - 1], cs[|cs| - 1];
        Quiet(init) && (Settled(init) ==> !Finishes(c) && !Brings(init, c)))
  }

  /** Every item is closed once, at the end of its life. With a finish reason, it has to come when
      all items are there. Without one, a chunk with usage and no choices closes everything, and
      the end of the stream closes the text, but no tool; a failure closes nothing. */
  predicate ClosesItems(P: seq<Chunk>, fails: bool) {
    Quiet(P)
    && (HasItems(P) ==>
          || Settled(P)
          || (LastFinish(P) == "" && (Ended(P) || (!fails && Tools(Deltas(P)) == []))))
  }

  // ---------------------------------------------------------------- what follows the life cycle

  predicate ToolIds(st: State) {
    forall k | 0 <= k < |st.order| :: st.order[k] in st.calls && st.calls[st.order[k]].id == k
  }

  function AllIn(st: State, p: Phase): Life {
    Going(true, if st.textStarted then p else Absent, seq(|st.order|, _ => p))
  }

  lemma TextLives(st: State, t: string)
    ensures WatchAll(AllIn(st, Open), AddText(st, t).1) == AllIn(AddText(st, t).0, Open)
  {
    var l := AllIn(st, Open);
    if t != "" {
      if st.textStarted {
        WatchOne(l, TextDelta(0, t));
      } else {
        WatchAppend(l, [MessageAdded(0), PartAdded(0)], [TextDelta(0, t)]);
        WatchTwo(l, MessageAdded(0), PartAdded(0));
        WatchOne(l.(text := Open), TextDelta(0, t));
      }
    }
  }

  lemma Rank(st: State, index: int) returns (k: nat)
    requires Valid(st) && ToolIds(st) && index in st.calls
    ensures k < |st.order| && st.order[k] == index && st.calls[index].id == k
  {
    assert index in st.order;
    k :| k < |st.order| && st.order[k] == index;
  }

  lemma StartLives(st: State, d: ToolDelta)
    requires Valid(st) && ToolIds(st) && d.index !in st.calls
    ensures var (st', es) := StartTool(st, d);
            ToolIds(st') && d.index in st'.calls && WatchAll(AllIn(st, Open), es) == AllIn(st', Open)
  {
    var (st', es) := StartTool(st, d);
    WatchOne(AllIn(st, Open), es[0]);
    assert forall k | 0 <= k < |st.order| :: st.order[k] in st.order;
    assert AllIn(st, Open).tools + [Open] == AllIn(st', Open).tools;
  }

  lemma ArgsLive(st: State, index: int, args: string)
    requires Valid(st) && ToolIds(st) && index in st.calls
    ensures var (st', es) := AddArgs(st, index, args);
            ToolIds(st') && WatchAll(AllIn(st, Open), es) == AllIn(st', Open)
  {
    var k := Rank(st, index);
    var l, es := AllIn(st, Open), AddArgs(st, index, args).1;
    WatchOne(l, es[0]);
    assert l.tools[k := Open] == l.tools;
  }

  lemma ToolLives(st: State, d: ToolDelta)
    requires Valid(st) && ToolIds(st)
    ensures var (st', es) := AddTool(st, d); ToolIds(st') && WatchAll(AllIn(st, Open), es) == AllIn(st', Open)
  {
    hide StartTool, AllIn, Watch;
    var (st1, es) := if d.index in st.toolStarted then (st, []) else StartTool(st, d);
    if d.index !in st.toolStarted { StartLives(st, d); StartValid(st, d); }
    if d.args != "" {
      ArgsLive(st1, d.index, d.args);
      WatchAppend(AllIn(st, Open), es, AddArgs(st1, d.index, d.args).1);
    }
  }

  lemma {:induction false} ToolsLive(st: State, ds: seq<ToolDelta>)
    requires Valid(st) && ToolIds(st)
    ensures var (st', es) := AddTools(st, ds); ToolIds(st') && WatchAll(AllIn(st, Open), es) == AllIn(st', Open)
  {
    hide AllIn, AddTool, ToolIds, Watch, Valid;
    if ds != [] {
      var (st1, es) := AddTools(st, ds[..|ds| - 1]);
      ToolsLive(st, ds[..|ds| - 1]);
      ToolLives(st1, ds[|ds| - 1]);
      WatchAppend(AllIn(st, Open), es, AddTool(st1, ds[|ds| - 1]).1);
    }
  }

  // ---------------------------------------------------------------- closing

  /** Tools whose indexes are listed are closed, the others open. */
  function PartlyClosed(st: State, text: Phase, indexes: seq<int>): Life {
    Going(true, text,
          seq(|st.order|, k requires 0 <= k < |st.order| => if st.order[k] in indexes then Closed else Open))
  }

  lemma ToolCloses(l: Life, tc: ToolCall)
    requires l.Going? && l.created
    ensures WatchAll(l, ToolClosing(tc))
            == if tc.id < |l.tools| && l.tools[tc.id] == Open then l.(tools := l.tools[tc.id := Closed]) else Broken
  {
    WatchTwo(l, ArgsDone(tc.outputIndex, tc.id, tc.args),
             ItemDone(tc.outputIndex, FunctionCall(tc.id, tc.callId, tc.name, tc.args)));
    if tc.id < |l.tools| { assert l.tools[tc.id := Said][tc.id := Closed] == l.tools[tc.id := Closed]; }
  }

  lemma {:induction false} ToolsClose(st: State, text: Phase, indexes: seq<int>)
    requires Valid(st) && ToolIds(st) && (forall i <- indexes :: i in st.calls)
    requires forall j, k | 0 <= j < k < |indexes| :: indexes[j] != indexes[k]
    ensures WatchAll(PartlyClosed(st, text, []), ToolsClosing(st, indexes)) == PartlyClosed(st, text, indexes)
  {
    hide Watch, ToolClosing;
    if indexes != [] {
      var init, last := indexes[..|indexes| - 1], indexes[|indexes| - 1];
      assert last in indexes && indexes == init + [last] && last !in init;
      ToolsClose(st, text, init);
      var k := Rank(st, last);
      var tc, l := st.calls[last], PartlyClosed(st, text, init);
      WatchAppend(PartlyClosed(st, text, []), ToolsClosing(st, init), ToolClosing(tc));
      ToolCloses(l, tc);
      assert l.tools[k := Closed] == PartlyClosed(st, text, indexes).tools;
    }
  }

  lemma TextCloses(st: State, l: Life)
    requires l.Going? && l.created && l.text == if st.textStarted then Open else Absent
    ensures WatchAll(l, TextClosing(st)) == l.(text := if st.textStarted then Closed else Absent)
  {
    if st.textStarted {
      var es := [TextDone(0, st.text), PartDone(0, st.text)];
      assert TextClosing(st) == es + [ItemDone(0, MessageItem(st.text))];
      WatchAppend(l, es, [ItemDone(0, MessageItem(st.text))]);
      WatchTwo(l, TextDone(0, st.text), PartDone(0, st.text));
      WatchOne(l.(text := Shown), ItemDone(0, MessageItem(st.text)));
    }
  }

  lemma Listed(st: State, indexes: seq<int>, k: nat)
    requires Valid(st) && Enumerates(indexes, st.toolStarted) && k < |st.order|
    ensures st.order[k] in indexes
  {
    var i := st.order[k];
    assert i in st.order;
    assert i in st.toolStarted;
  }

  /** Closing when everything is open. */
  lemma AllClose(st: State, indexes: seq<int>)
    requires Valid(st) && ToolIds(st) && Enumerates(indexes, st.toolStarted)
    ensures WatchAll(AllIn(st, Open), TextClosing(st) + ToolsClosing(st, indexes)) == AllIn(st, Closed)
  {
    hide ToolsClosing, TextClosing;
    var text := if st.textStarted then Closed else Absent;
    TextCloses(st, AllIn(st, Open));
    assert AllIn(st, Open).(text := text) == PartlyClosed(st, text, []);
    ToolsClose(st, text, indexes);
    forall k | 0 <= k < |st.order| ensures st.order[k] in indexes { Listed(st, indexes, k); }
    assert PartlyClosed(st, text, indexes) == AllIn(st, Closed);
    WatchAppend(AllIn(st, Open), TextClosing(st), ToolsClosing(st, indexes));
  }

  // ---------------------------------------------------------------- beyond the life cycle

  predicate IsBringing(e: Event) {
    e.MessageAdded? || e.PartAdded? || e.TextDelta? || e.ToolAdded? || e.ArgsDelta?
  }

  predicate AllBring(es: seq<Event>) { forall k | 0 <= k < |es| :: IsBringing(es[k]) }

  /** Whatever is brought once an item is closed breaks the life cycle or leaves an item open. */
  lemma {:induction false} BroughtLate(l: Life, es: seq<Event>)
    requires es != [] && AllBring(es) && (l.Broken? || (SomeClosed(l) && l.created))
    ensures var l' := WatchAll(l, es); l'.Broken? || (SomeClosed(l') && IsUnclosed(l') && l'.created)
  {
    hide Watch, SomeClosed, IsUnclosed;
    var init, e := es[..|es| - 1], es[|es| - 1];
    assert IsBringing(e);
    if init != [] {
      assert forall k | 0 <= k < |init| :: es[k] == init[k];
      BroughtLate(l, init);
    }
    var l1 := WatchAll(l, init);
    if l1.Broken? { assert Watch(l1, e) == Broken by { BrokenOnce(e); } } else { BringsOne(l1, e); }
  }

  lemma BrokenOnce(e: Event)
    ensures Watch(Broken, e) == Broken
  {
  }

  lemma BringsOne(l: Life, e: Event)
    requires IsBringing(e) && SomeClosed(l) && l.created
    ensures var l' := Watch(l, e); l'.Broken? || (SomeClosed(l') && IsUnclosed(l') && l'.created)
  {
    var l' := Watch(l, e);
    if l'.Going? {
      if k :| 0 <= k < |l.tools| && l.tools[k] == Closed { assert l'.tools[k] == Closed; }
      if e.ToolAdded? { assert l'.tools[|l.tools|] != Closed; }
      if e.ArgsDelta? { assert l'.tools[e.itemId] != Closed; }
    }
  }

  lemma TextBrings(st: State, t: string)
    ensures AllBring(AddText(st, t).1) && (AddText(st, t).1 != [] <==> t != "")
  {
  }

  lemma ToolBrings(st: State, d: ToolDelta)
    requires Valid(st)
    ensures AllBring(AddTool(st, d).1)
    ensures AddTool(st, d).1 != [] <==> d.args != "" || d.index !in st.toolStarted
    ensures AddTool(st, d).0.toolStarted == st.toolStarted + {d.index}
  {
  }

  lemma {:induction false} ToolsBring(st: State, ds: seq<ToolDelta>)
    requires Valid(st)
    ensures AllBring(AddTools(st, ds).1)
    ensures AddTools(st, ds).1 != [] <==> exists d <- ds :: d.args != "" || d.index !in st.toolStarted
    ensures AddTools(st, ds).1 == [] ==> AddTools(st, ds).0.toolStarted == st.toolStarted
    ensures forall d <- ds :: d.index in AddTools(st, ds).0.toolStarted
  {
    hide AddTool, Valid;
    if ds != [] {
      var init, d := ds[..|ds| - 1], ds[|ds| - 1];
      assert ds == init + [d];
      ToolsBring(st, init);
      ToolBrings(AddTools(st, init).0, d);
      if x :| x in init && (x.args != "" || x.index !in st.toolStarted) { assert x in ds; }
    }
  }

  /** The watcher knows as many tools as the converter, and the text if the converter does. */
  predicate Fits(st: State, l: Life) {
    l.Going? ==> l.created && |l.tools| == |st.order| && (l.text != Absent ==> st.textStarted)
  }

  lemma TextFits(st: State, l: Life, t: string)
    requires Fits(st, l)
    ensures Fits(AddText(st, t).0, WatchAll(l, AddText(st, t).1))
  {
    if t != "" {
      if st.textStarted {
        WatchOne(l, TextDelta(0, t));
      } else {
        WatchAppend(l, [MessageAdded(0), PartAdded(0)], [TextDelta(0, t)]);
        WatchTwo(l, MessageAdded(0), PartAdded(0));
        WatchOne(Watch(Watch(l, MessageAdded(0)), PartAdded(0)), TextDelta(0, t));
      }
    }
  }

  lemma ToolFits(st: State, l: Life, d: ToolDelta)
    requires Valid(st) && Fits(st, l)
    ensures Fits(AddTool(st, d).0, WatchAll(l, AddTool(st, d).1))
  {
    hide StartTool, AddArgs, Watch, Fits;
    var (st1, es) := if d.index in st.toolStarted then (st, []) else StartTool(st, d);
    if d.index !in st.toolStarted {
      StartFits(st, l, d);
      StartValid(st, d);
      StartKnows(st, d);
    }
    if d.args != "" {
      WatchAppend(l, es, AddArgs(st1, d.index, d.args).1);
      ArgsFit(st1, WatchAll(l, es), d.index, d.args);
    }
  }

  lemma StartKnows(st: State, d: ToolDelta)
    ensures d.index in StartTool(st, d).0.calls
  {
  }

  lemma StartFits(st: State, l: Life, d: ToolDelta)
    requires Valid(st) && Fits(st, l) && d.index !in st.calls
    ensures Fits(StartTool(st, d).0, WatchAll(l, StartTool(st, d).1))
  {
    WatchOne(l, StartTool(st, d).1[0]);
  }

  lemma ArgsFit(st: State, l: Life, index: int, args: string)
    requires Fits(st, l) && index in st.calls
    ensures Fits(AddArgs(st, index, args).0, WatchAll(l, AddArgs(st, index, args).1))
  {
    WatchOne(l, AddArgs(st, index, args).1[0]);
  }


  lemma {:induction false} ToolsFit(st: State, l: Life, ds: seq<ToolDelta>)
    requires Valid(st) && ToolIds(st) && Fits(st, l)
    ensures ToolIds(AddTools(st, ds).0) && Fits(AddTools(st, ds).0, WatchAll(l, AddTools(st, ds).1))
  {
    hide AddTool, Fits, Watch, ToolIds, Valid;
    if ds != [] {
      var (st1, es) := AddTools(st, ds[..|ds| - 1]);
      ToolsFit(st, l, ds[..|ds| - 1]);
      ToolFits(st1, WatchAll(l, es), ds[|ds| - 1]);
      ToolLives(st1, ds[|ds| - 1]);
      WatchAppend(l, es, AddTool(st1, ds[|ds| - 1]).1);
    }
  }

  /** Closing a closed tool again breaks the life cycle. */
  lemma {:induction false} ToolTwice(st: State, l: Life, indexes: seq<int>, k: nat)
    requires Valid(st) && ToolIds(st) && (forall i <- indexes :: i in st.calls)
    requires l.Going? && l.created && |l.tools| == |st.order| && k < |l.tools| && l.tools[k] == Closed
    ensures var l' := WatchAll(l, ToolsClosing(st, indexes));
            || l'.Broken?
            || (st.order[k] !in indexes && l'.Going? && l'.created && |l'.tools| == |l.tools| && l'.tools[k] == Closed)
  {
    hide Watch, ToolClosing;
    if indexes != [] {
      var init, last := indexes[..|indexes| - 1], indexes[|indexes| - 1];
      assert last in indexes && indexes == init + [last];
      ToolTwice(st, l, init, k);
      var tc, l1 := st.calls[last], WatchAll(l, ToolsClosing(st, init));
      WatchAppend(l, ToolsClosing(st, init), ToolClosing(tc));
      if l1.Broken? { StaysBroken(ToolClosing(tc)); } else { ToolCloses(l1, tc); }
      var r := Rank(st, last);
    }
  }

  /** Closing once more what is closed breaks the life cycle. */
  lemma ClosedTwice(st: State, l: Life, indexes: seq<int>)
    requires Valid(st) && ToolIds(st) && Fits(st, l) && Enumerates(indexes, st.toolStarted)
    requires l.Broken? || SomeClosed(l)
    ensures WatchAll(l, TextClosing(st) + ToolsClosing(st, indexes)) == Broken
  {
    hide ToolsClosing;
    var text := TextClosing(st);
    WatchAppend(l, text, ToolsClosing(st, indexes));
    TextOnce(st, l);
    var l1 := WatchAll(l, text);
    if l1.Broken? {
      StaysBroken(ToolsClosing(st, indexes));
    } else {
      var k :| 0 <= k < |l.tools| && l.tools[k] == Closed;
      Listed(st, indexes, k);
      ToolTwice(st, l1, indexes, k);
    }
  }

  lemma TextOnce(st: State, l: Life)
    requires Fits(st, l) && (l.Broken? || l.Going?)
    ensures var l' := WatchAll(l, TextClosing(st));
            l'.Broken? || (l.Going? && l.text != Closed && l'.Going? && l'.created && l'.tools == l.tools)
  {
    if st.textStarted {
      var es := [TextDone(0, st.text), PartDone(0, st.text)];
      assert TextClosing(st) == es + [ItemDone(0, MessageItem(st.text))];
      WatchAppend(l, es, [ItemDone(0, MessageItem(st.text))]);
      WatchTwo(l, TextDone(0, st.text), PartDone(0, st.text));
      WatchOne(WatchAll(l, es), ItemDone(0, MessageItem(st.text)));
    }
  }

  // ---------------------------------------------------------------- one chunk

  /** Some item is closed, or the life cycle is broken already. */
  ghost predicate IsLate(st: State, l: Life) {
    Valid(st) && ToolIds(st) && Fits(st, l) && (l.Broken? || (SomeClosed(l) && l.created))
  }

  predicate AddsTo(st: State, choice: Choice) {
    choice.content != "" || exists d <- choice.toolCalls :: d.args != "" || d.index !in st.toolStarted
  }

  /** What a choice does once some item is closed. */
  lemma LateChoice(st: State, l: Life, choice: Choice)
    requires IsLate(st, l)
    ensures var (st', es) := ConvertChoice(st, choice);
            var l' := WatchAll(l, es);
            && IsLate(st', l')
            && (choice.finishReason != "" ==> l'.Broken?)
            && (choice.finishReason == "" && !AddsTo(st, choice) ==> l' == l)
            && (AddsTo(st, choice) ==> l'.Broken? || IsUnclosed(l'))
  {
    hide AddText, AddTools, TextClosing, ToolsClosing, SomeClosed, IsUnclosed, Watch, Fits, Sorted, AllBring, ToolIds;
    TextSame(st, choice.content);
    var (st1, es) := AddText(st, choice.content);
    var (st2, fs) := AddTools(st1, choice.toolCalls);
    TextBrings(st, choice.content);
    TextFits(st, l, choice.content);
    ToolsBring(st1, choice.toolCalls);
    ToolsFit(st1, WatchAll(l, es), choice.toolCalls);
    WatchAppend(l, es, fs);
    BothBring(es, fs);
    if es + fs != [] { BroughtLate(l, es + fs); }
    if choice.finishReason != "" {
      ClosedTwice(st2, WatchAll(l, es + fs), Sorted(st2.toolStarted));
      var closing := TextClosing(st2) + ToolsClosing(st2, Sorted(st2.toolStarted));
      WatchAppend(l, es + fs, closing);
      assert es + fs + TextClosing(st2) + ToolsClosing(st2, Sorted(st2.toolStarted)) == es + fs + closing;
      SameItems(st2, choice.finishReason);
    }
  }

  lemma BothBring(es: seq<Event>, fs: seq<Event>)
    requires AllBring(es) && AllBring(fs)
    ensures AllBring(es + fs)
  {
  }

  lemma TextSame(st: State, t: string)
    ensures var st' := AddText(st, t).0;
            && st'.toolStarted == st.toolStarted && (Valid(st) ==> Valid(st')) && (ToolIds(st) ==> ToolIds(st'))
  {
  }

  lemma SameItems(st: State, reason: string)
    ensures var st' := st.(finishReason := reason, pendingFinish := true);
            && (Valid(st) ==> Valid(st')) && (ToolIds(st) ==> ToolIds(st')) && AllIn(st', Closed) == AllIn(st, Closed)
            && Fits(st', Broken)
  {
  }

  /** What a choice does while all items are open. */
  lemma OpenChoice(st: State, choice: Choice)
    requires Valid(st) && ToolIds(st)
    ensures var (st', es) := ConvertChoice(st, choice);
            && ToolIds(st')
            && WatchAll(AllIn(st, Open), es) == AllIn(st', if choice.finishReason != "" then Closed else Open)
  {
    hide AddText, AddTools, TextClosing, ToolsClosing, Watch, Sorted, ToolIds, AllIn;
    TextSame(st, choice.content);
    var l := AllIn(st, Open);
    var (st1, es) := AddText(st, choice.content);
    var (st2, fs) := AddTools(st1, choice.toolCalls);
    TextLives(st, choice.content);
    ToolsLive(st1, choice.toolCalls);
    WatchAppend(l, es, fs);
    if choice.finishReason != "" {
      AllClose(st2, Sorted(st2.toolStarted));
      var closing := TextClosing(st2) + ToolsClosing(st2, Sorted(st2.toolStarted));
      WatchAppend(l, es + fs, closing);
      assert es + fs + TextClosing(st2) + ToolsClosing(st2, Sorted(st2.toolStarted)) == es + fs + closing;
      SameItems(st2, choice.finishReason);
    }
  }

  /** After some chunks: the items are all open, all closed, or the stream is beyond repair. */
  ghost predicate Tracked(cs: seq<Chunk>, st: State, l: Life) {
    && Valid(st) && ToolIds(st)
    && (if cs == [] then st == NEW_STATE && l == NEW_LIFE
        else if Quiet(cs) then l == AllIn(st, if Settled(cs) then Closed else Open)
        else IsLate(st, l) && (l.Broken? || IsUnclosed(l)))
  }

  /** The converter has an item exactly when the chunks do. */
  predicate SameHas(cs: seq<Chunk>, st: State) {
    && st.textStarted == (TextIn(cs) != "") && st.order == Tools(Deltas(cs))
    && (!st.finished ==> st.pendingFinish == (LastFinish(cs) != ""))
  }

  lemma {:induction false} SettledFacts(cs: seq<Chunk>)
    ensures Settled(cs) ==> HasItems(cs) && LastFinish(cs) != ""
    ensures !Settled(cs) ==> Quiet(cs)
  {
    hide TextIn, Tools, Deltas;
    if cs != [] {
      var init, c := cs[..|cs| - 1], cs[|cs| - 1];
      assert init + [c] == cs;
      SettledFacts(init);
      ReferenceSnoc(init, c);
      ItemsStay(init, c);
    }
  }

  lemma ItemsStay(init: seq<Chunk>, c: Chunk)
    ensures HasItems(init) ==> HasItems(init + [c])
  {
    ReferenceSnoc(init, c);
    if c.choices != [] {
      ToolsStay(Deltas(init), c.choices[0].toolCalls);
    } else {
      assert Deltas(init) + [] == Deltas(init);
    }
  }

  lemma {:induction false} ToolsStay(ds: seq<ToolDelta>, more: seq<ToolDelta>)
    ensures Tools(ds) != [] ==> Tools(ds + more) != []
  {
    if more == [] {
      assert ds + more == ds;
    } else {
      assert ds + more == (ds + more[..|more| - 1]) + [more[|more| - 1]];
      ToolsStay(ds, more[..|more| - 1]);
      ToolsSnoc(ds + more[..|more| - 1], more[|more| - 1]);
    }
  }

  lemma NoneClosed(st: State)
    requires !st.textStarted && st.order == []
    ensures AllIn(st, Open) == AllIn(st, Closed)
  {
  }

  lemma AllClosed(st: State)
    requires Valid(st) && ToolIds(st) && (st.textStarted || st.order != [])
    ensures IsLate(st, AllIn(st, Closed)) && IsUnclosed(AllIn(st, Open)) && !IsUnclosed(AllIn(st, Closed))
  {
    if st.order != [] { assert AllIn(st, Closed).tools[0] == Closed && AllIn(st, Open).tools[0] != Closed; }
  }

  lemma AddsExactly(st: State, init: seq<Chunk>, c: Chunk)
    requires Valid(st) && SameHas(init, st) && c.choices != []
    ensures AddsTo(st, c.choices[0]) <==> Brings(init, c)
  {
    hide Tools, Deltas;
    assert forall i :: i in st.toolStarted <==> i in st.order;
  }

  lemma UnchangedWhenQuiet(st: State, choice: Choice)
    requires Valid(st) && !AddsTo(st, choice)
    ensures AllIn(ConvertChoice(st, choice).0, Closed) == AllIn(st, Closed)
  {
    hide AddTool, ToolsClosing, Sorted;
    NoNewTools(st, choice.toolCalls);
  }

  lemma {:induction false} NoNewTools(st: State, ds: seq<ToolDelta>)
    requires Valid(st) && forall d <- ds :: d.args == "" && d.index in st.toolStarted
    ensures AddTools(st, ds) == (st, [])
  {
    if ds != [] {
      assert forall d <- ds[..|ds| - 1] :: d in ds;
      assert ds[|ds| - 1] in ds;
      NoNewTools(st, ds[..|ds| - 1]);
      var none: seq<Event> := [];
      assert AddTool(st, ds[|ds| - 1]) == (st, none) && none + none == none;
    }
  }

  lemma ChoiceTracked(init: seq<Chunk>, c: Chunk, st: State, l: Life)
    requires c.choices != [] && init != [] && Tracked(init, st, l) && SameHas(init, st)
    requires SameHas(init + [c], ConvertChoice(st, c.choices[0]).0)
    ensures var (st', es) := ConvertChoice(st, c.choices[0]); Tracked(init + [c], st', WatchAll(l, es))
  {
    hide ConvertChoice, AllIn, AddsTo, Brings, HasItems, Valid, ToolIds, SomeClosed, IsUnclosed, Fits, Tools, Deltas,
      TextIn;
    var cs, choice := init + [c], c.choices[0];
    assert cs[..|init|] == init && cs != [];
    SettledFacts(init);
    SettledFacts(cs);
    AddsExactly(st, init, c);
    var (st', es) := ConvertChoice(st, choice);
    if Quiet(init) && !Settled(init) {
      OpenChoice(st, choice);
      if Finishes(c) && !HasItems(cs) { NothingIs(cs, st'); NoneClosed(st'); }
    } else {
      if Quiet(init) { SomethingIs(init, st); AllClosed(st); }
      LateChoice(st, l, choice);
      if Quiet(cs) { UnchangedWhenQuiet(st, choice); }
    }
  }

  lemma NothingIs(cs: seq<Chunk>, st: State)
    requires SameHas(cs, st) && !HasItems(cs)
    ensures !st.textStarted && st.order == []
  {
  }

  lemma SomethingIs(cs: seq<Chunk>, st: State)
    requires SameHas(cs, st) && HasItems(cs)
    ensures st.textStarted || st.order != []
  {
  }

  // ---------------------------------------------------------------- the end of a stream

  /** A completion ends the life cycle exactly when no item is open. */
  lemma CompletedAt(st: State, l: Life)
    requires Valid(st)
    ensures WatchAll(l, Complete(st).1) == if l.Going? && l.created && !IsUnclosed(l) then Finished else Broken
  {
    hide IsUnclosed;
    WatchOne(l, Completed(ResponseOf(st)));
  }

  /** Completion without closing anything. */
  lemma JustComplete(cs: seq<Chunk>, st: State, l: Life)
    requires cs != [] && Tracked(cs, st, l) && SameHas(cs, st)
    ensures WatchAll(l, Complete(st).1) == if Quiet(cs) && (HasItems(cs) ==> Settled(cs)) then Finished else Broken
  {
    hide AllIn, HasItems, Valid, ToolIds, SomeClosed, IsUnclosed, Fits, Tools, Deltas, TextIn, Complete, SameHas;
    SettledFacts(cs);
    CompletedAt(st, l);
    AllGoing(st);
    if HasItems(cs) {
      SomethingIs(cs, st);
      AllClosed(st);
    } else {
      NothingIs(cs, st);
      NoneOpen(st);
    }
  }

  lemma AllGoing(st: State)
    ensures forall p :: AllIn(st, p).Going? && AllIn(st, p).created
  {
  }

  lemma NoneOpen(st: State)
    requires !st.textStarted && st.order == []
    ensures !IsUnclosed(AllIn(st, Open)) && !IsUnclosed(AllIn(st, Closed))
  {
  }

  /** Completion after closing everything. */
  lemma CloseAndComplete(cs: seq<Chunk>, st: State, indexes: seq<int>)
    requires Valid(st) && ToolIds(st) && SameHas(cs, st) && Enumerates(indexes, st.toolStarted)
    ensures WatchAll(AllIn(st, Open), TextClosing(st) + ToolsClosing(st, indexes) + Complete(st).1) == Finished
  {
    hide AllIn, ToolIds, IsUnclosed, Complete, SameHas, TextClosing, ToolsClosing;
    AllClose(st, indexes);
    WatchAppend(AllIn(st, Open), TextClosing(st) + ToolsClosing(st, indexes), Complete(st).1);
    CompletedAt(st, AllIn(st, Closed));
    AllGoing(st);
    if st.textStarted || st.order != [] { AllClosed(st); } else { NoneOpen(st); }
  }

  /** Completion after closing the text only. */
  lemma CloseTextAndComplete(st: State)
    requires Valid(st)
    ensures WatchAll(AllIn(st, Open), TextClosing(st) + Complete(st).1) == if st.order == [] then Finished else Broken
  {
    hide Complete, TextClosing;
    WatchAppend(AllIn(st, Open), TextClosing(st), Complete(st).1);
    TextCloses(st, AllIn(st, Open));
    var l := AllIn(st, Open).(text := if st.textStarted then Closed else Absent);
    CompletedAt(st, l);
    if st.order != [] { assert l.tools[0] != Closed; }
  }

  /** What is known after a run: how far the items are, or how the stream has ended. */
  ghost predicate RunTracked(P: seq<Chunk>, st: State, l: Life) {
    if st.finished then P != [] && l == if ClosesItems(P, false) then Finished else Broken
    else Tracked(P, st, l)
  }

  lemma UsageTracked(order: SetOrder, init: seq<Chunk>, c: Chunk, st: State, l: Life)
    requires c.choices == [] && init != [] && Tracked(init, st, l) && SameHas(init, st) && !st.finished
    ensures var (st', es) := ConvertUsage(order, st, c.usage.Some?);
            && st'.finished == Ended(init + [c])
            && RunTracked(init + [c], st', WatchAll(l, es))
  {
    hide AllIn, HasItems, Valid, ToolIds, SomeClosed, IsUnclosed, Fits, Tools, Deltas, TextIn, TextClosing,
      ToolsClosing, LastFinish, ResponseOf;
    var cs := init + [c];
    assert cs[..|init|] == init && cs != [];
    ReferenceSnoc(init, c);
    assert TextIn(init) + "" == TextIn(init) && Deltas(init) + [] == Deltas(init);
    SameItemsWithout(init, c);
    SettledFacts(init);
    if st.pendingFinish {
      var st1 := st.(pendingFinish := false);
      JustComplete(init, st, l);
      SamePending(st);
    } else if c.usage.Some? {
      CloseAndComplete(init, st, order(st.toolStarted));
    }
  }

  lemma SamePending(st: State)
    ensures var st1 := st.(pendingFinish := false); Valid(st) ==> Valid(st1) && Complete(st1).1 == Complete(st).1
  {
    if Valid(st) { assert CallItems(st.(pendingFinish := false)) == CallItems(st); }
  }

  lemma SameItemsWithout(init: seq<Chunk>, c: Chunk)
    requires c.choices == []
    ensures var cs := init + [c];
            && HasItems(cs) == HasItems(init) && Quiet(cs) == Quiet(init) && Settled(cs) == Settled(init)
            && LastFinish(cs) == LastFinish(init)
  {
    hide Tools, Deltas, TextIn;
    assert (init + [c])[..|init|] == init;
    ReferenceSnoc(init, c);
    assert TextIn(init) + "" == TextIn(init) && Deltas(init) + [] == Deltas(init);
  }

  lemma ReflectsItems(st: State, cs: seq<Chunk>)
    requires Reflects(st, cs)
    ensures SameHas(cs, st) && Valid(st)
  {
    hide Tools, Deltas, TextIn, IndexOf;
  }

  lemma ChunkTracked(order: SetOrder, init: seq<Chunk>, c: Chunk, st: State, l: Life)
    requires Tracked(init, st, l) && Reflects(st, init) && !st.finished && st.started == (init != [])
    requires Reflects(Convert(order, st, c).0, init + [c])
    ensures var (st', es) := Convert(order, st, c); RunTracked(init + [c], st', WatchAll(l, es))
  {
    hide Reflects, ConvertUsage, ConvertChoice, Tracked, Quiet, Settled, ClosesItems, RunTracked, Watch;
    ReflectsItems(st, init);
    ReflectsItems(Convert(order, st, c).0, init + [c]);
    var st1 := st.(usage := if c.usage.Some? then c.usage.value else st.usage, started := true);
    var created := if st.started then [] else [Created];
    var es := if c.choices == [] then ConvertUsage(order, st1, c.usage.Some?).1 else ConvertChoice(st1, c.choices[0]).1;
    WatchAppend(l, created, es);
    if init == [] {
      FirstTracked(order, c, st, l);
    } else {
      SameTracked(init, st, st1, l);
      if c.choices == [] {
        UsageTracked(order, init, c, st1, l);
      } else {
        ChoiceTracked(init, c, st1, l);
        ChoiceGoesOn(st1, c.choices[0], init + [c], WatchAll(l, es));
      }
    }
  }

  lemma ChoiceGoesOn(st: State, choice: Choice, cs: seq<Chunk>, l: Life)
    requires Valid(st) && !st.finished && Tracked(cs, ConvertChoice(st, choice).0, l)
    ensures !ConvertChoice(st, choice).0.finished && RunTracked(cs, ConvertChoice(st, choice).0, l)
  {
    hide Tracked, ToolsClosing, TextClosing, Sorted, AddTools;
    var st1 := AddText(st, choice.content).0;
    ToolsKeep(st1, choice.toolCalls);
  }

  lemma SameTracked(cs: seq<Chunk>, st: State, st': State, l: Life)
    requires cs != [] && Tracked(cs, st, l) && SameHas(cs, st)
    requires st' == st.(usage := st'.usage, started := true)
    ensures Tracked(cs, st', l) && SameHas(cs, st')
  {
    hide Tools, Deltas, TextIn, LastFinish, SomeClosed, IsUnclosed, Quiet, Settled;
  }

  /** The first chunk. */
  lemma FirstTracked(order: SetOrder, c: Chunk, st: State, l: Life)
    requires Tracked([], st, l) && SameHas([c], Convert(order, st, c).0)
    ensures var (st', es) := Convert(order, st, c); RunTracked([c], st', WatchAll(l, es))
  {
    hide Tools, Deltas, TextIn, LastFinish, SomeClosed, ToolsClosing, TextClosing, Sorted, ConvertChoice;
    var st1 := st.(usage := if c.usage.Some? then c.usage.value else st.usage, started := true);
    WatchOne(NEW_LIFE, Created);
    NoneClosed(st1);
    NoneOpen(st1);
    assert [c][..0] == [] && [] + [c] == [c];
    SettledFacts([c]);
    assert AllIn(st1, Open) == Going(true, Absent, []);
    if c.choices == [] {
      NothingYet(c);
      var es := ConvertUsage(order, st1, c.usage.Some?).1;
      WatchAppend(l, [Created], es);
      if c.usage.Some? { CloseAndComplete([c], st1, order(st1.toolStarted)); }
    } else {
      WatchAppend(l, [Created], ConvertChoice(st1, c.choices[0]).1);
      OpenChoice(st1, c.choices[0]);
      var st2 := ConvertChoice(st1, c.choices[0]).0;
      FirstSettled(c);
      if !HasItems([c]) { NothingIs([c], st2); NoneClosed(st2); }
      ChoiceGoesOn(st1, c.choices[0], [c], WatchAll(AllIn(st1, Open), ConvertChoice(st1, c.choices[0]).1));
    }
  }

  lemma FirstSettled(c: Chunk)
    ensures Quiet([c]) && Settled([c]) == (Finishes(c) && HasItems([c]))
  {
    hide HasItems;
    var none: seq<Chunk> := [];
    assert [c][..0] == none && !Settled(none) && Quiet(none);
  }

  lemma NothingYet(c: Chunk)
    requires c.choices == []
    ensures TextIn([c]) == "" && Deltas([c]) == [] && Tools(Deltas([c])) == [] && LastFinish([c]) == ""
    ensures Ended([c]) == c.usage.Some? && Quiet([c]) && !Settled([c]) && !HasItems([c])
  {
    var none: seq<Chunk> := [];
    ReferenceSnoc(none, c);
    Nothing();
    assert none + [c] == [c] && [c][..0] == none && "" + "" == "";
  }

  // ---------------------------------------------------------------- whole streams

  lemma ConvertStarts(order: SetOrder, st: State, c: Chunk)
    requires Valid(st) && !st.finished
    ensures Convert(order, st, c).0.started
  {
    hide ToolsClosing, TextClosing, Sorted, AddTools, Complete;
    var st1 := st.(usage := if c.usage.Some? then c.usage.value else st.usage, started := true);
    if c.choices != [] {
      TextSame(st1, c.choices[0].content);
      ToolsKeep(AddText(st1, c.choices[0].content).0, c.choices[0].toolCalls);
    } else {
      assert forall s: State | Valid(s) :: Complete(s).0.started == s.started by { CompleteKeeps(); }
    }
  }

  lemma CompleteKeeps()
    ensures forall s: State | Valid(s) :: Complete(s).0.started == s.started
  {
  }

  lemma {:induction false} AllTracked(order: SetOrder, cs: seq<Chunk>)
    ensures var (st, es) := ConvertAll(order, cs);
            && (!st.finished ==> st.started == (cs != []))
            && RunTracked(Consumed(cs), st, WatchAll(NEW_LIFE, es))
  {
    hide Convert, RunTracked, Watch, Consumed, Ended, Reflects;
    RunReflects(order, cs);
    if cs == [] {
      NothingTracked();
    } else {
      var init, c := cs[..|cs| - 1], cs[|cs| - 1];
      assert init + [c] == cs;
      AllTracked(order, init);
      RunReflects(order, init);
      ReferenceSnoc(init, c);
      var (st, es) := ConvertAll(order, init);
      WatchAppend(NEW_LIFE, es, Convert(order, st, c).1);
      if st.finished {
        ConvertFinished(order, st, c);
        assert es + [] == es;
      } else {
        ConvertStarts(order, st, c);
        GoingOn(init, st, WatchAll(NEW_LIFE, es));
        ChunkTracked(order, init, c, st, WatchAll(NEW_LIFE, es));
      }
    }
  }

  lemma GoingOn(cs: seq<Chunk>, st: State, l: Life)
    requires RunTracked(cs, st, l) && !st.finished
    ensures Tracked(cs, st, l)
  {
  }

  lemma NothingTracked()
    ensures RunTracked([], NEW_STATE, NEW_LIFE) && Consumed([]) == []
  {
  }

  /** Over every run, the stream keeps to the life cycle exactly when there was a chunk and the
      chunks consumed close every item once, when all of it is there. */
  lemma LifeExactly(order: SetOrder, cs: seq<Chunk>, fails: bool)
    ensures WatchAll(NEW_LIFE, StreamEvents(order, cs, fails))
            == if cs != [] && ClosesItems(Consumed(cs), fails) then Finished else Broken
  {
    hide ConvertAll, Watch, WatchAll, Reflects, TextClosing, Complete, LastFinish, TextIn, Tools, Deltas, AllIn;
    AllTracked(order, cs);
    RunReflects(order, cs);
    var (st, es) := ConvertAll(order, cs);
    var l, P := WatchAll(NEW_LIFE, es), Consumed(cs);
    WatchAppend(NEW_LIFE, es, Closing(st, fails));
    if st.finished {
      assert es + [] == es;
    } else {
      ReflectsItems(st, P);
      SettledFacts(P);
      if cs == [] {
        CompletedAt(st, NEW_LIFE);
        NoText(st);
        assert [] + Complete(st).1 == Complete(st).1;
      } else if fails || st.pendingFinish {
        JustComplete(P, st, l);
      } else {
        CloseTextAndComplete(st);
      }
    }
  }

  lemma NoText(st: State)
    ensures !st.textStarted ==> TextClosing(st) == []
  {
  }

  /** `response.created` comes first exactly when there was a chunk at all. */
  lemma CreatedFirst(order: SetOrder, cs: seq<Chunk>, fails: bool)
    ensures var es := StreamEvents(order, cs, fails); es != [] && (es[0] == Created <==> cs != [])
  {
    hide Convert, TextClosing, Complete;
    if cs == [] {
      NoText(NEW_STATE);
      CompletedOnly(NEW_STATE);
      assert [] + ([] + Complete(NEW_STATE).1) == Complete(NEW_STATE).1;
    } else {
      FirstEvent(order, cs);
    }
  }

  lemma CompletedOnly(st: State)
    requires Valid(st)
    ensures Complete(st).1 == [Completed(ResponseOf(st))]
  {
  }

  lemma {:induction false} FirstEvent(order: SetOrder, cs: seq<Chunk>)
    requires cs != []
    ensures var es := ConvertAll(order, cs).1; es != [] && es[0] == Created
  {
    hide ConvertUsage, ConvertChoice;
    var init := cs[..|cs| - 1];
    if init != [] {
      FirstEvent(order, init);
    } else {
      assert ConvertAll(order, init) == (NEW_STATE, []);
    }
  }

  // ---------------------------------------------------------------- inputs that leave the life cycle

  lemma OneChunk(content: string, calls: seq<ToolDelta>, reason: string)
    ensures var c := Single(content, calls, reason);
            && Consumed([c]) == [c] && !Ended([c]) && TextIn([c]) == content && Deltas([c]) == calls
            && LastFinish([c]) == reason
  {
    hide Tools, TextIn, Deltas, LastFinish, Consumed, Ended;
    var none: seq<Chunk>, c := [], Single(content, calls, reason);
    ReferenceSnoc(none, c);
    Nothing();
    assert none + [c] == [c] && "" + content == content && [] + calls == calls;
    assert !Ended(none) by { NoEnd(); }
  }

  lemma NoEnd()
    ensures !Ended([])
  {
  }

  lemma TwoChunks(content: string, reason: string, d: Chunk)
    requires d.choices != []
    ensures var c := Single(content, [], reason); Consumed([c, d]) == [c, d] && [c, d][..1] == [c]
  {
    hide Consumed, Ended, TextIn, Deltas, LastFinish;
    var c := Single(content, [], reason);
    OneChunk(content, [], reason);
    ReferenceSnoc([c], d);
    assert [c] + [d] == [c, d];
  }

  /** Without any chunk the stream is a completion that follows no `response.created`. */
  lemma NeverCreated(order: SetOrder, fails: bool)
    ensures WatchAll(NEW_LIFE, StreamEvents(order, [], fails)) == Broken
  {
    LifeExactly(order, [], fails);
  }

  /** A tool call without a finish reason is never closed, whether the upstream ends or fails. */
  lemma ToolNeverClosed(order: SetOrder, fails: bool)
    ensures WatchAll(NEW_LIFE, StreamEvents(order, [Single("", [TOOL_FIRST], "")], fails)) == Broken
  {
    hide StreamEvents, Consumed, Tools, TextIn, Deltas, LastFinish;
    var c := Single("", [TOOL_FIRST], "");
    OneChunk("", [TOOL_FIRST], "");
    OneTool();
    FirstSettled(c);
    LifeExactly(order, [c], fails);
  }

  /** Text without a finish reason is closed at the end of the stream, but not after a failure. */
  lemma TextCutOff(order: SetOrder, fails: bool)
    ensures WatchAll(NEW_LIFE, StreamEvents(order, [Single("x", [], "")], fails)) == if fails then Broken else Finished
  {
    hide StreamEvents, Consumed, Tools, TextIn, Deltas, LastFinish;
    var c := Single("x", [], "");
    OneChunk("x", [], "");
    Nothing();
    FirstSettled(c);
    LifeExactly(order, [c], fails);
  }

  /** Text that arrives after the finish reason goes to an item already closed. */
  lemma TextAfterFinish(order: SetOrder, fails: bool)
    ensures WatchAll(NEW_LIFE, StreamEvents(order, [Single("x", [], "stop"), Single("y", [], "")], fails)) == Broken
  {
    Late(order, Single("y", [], ""), fails);
  }

  /** A second finish reason closes the same item again. */
  lemma FinishedTwice(order: SetOrder, fails: bool)
    ensures WatchAll(NEW_LIFE, StreamEvents(order, [Single("x", [], "stop"), Single("", [], "stop")], fails)) == Broken
  {
    Late(order, Single("", [], "stop"), fails);
  }

  lemma Late(order: SetOrder, d: Chunk, fails: bool)
    requires Finishes(d) || (d.choices != [] && d.choices[0].content != "")
    ensures WatchAll(NEW_LIFE, StreamEvents(order, [Single("x", [], "stop"), d], fails)) == Broken
  {
    hide StreamEvents, Consumed, Tools, TextIn, Deltas, LastFinish;
    var c := Single("x", [], "stop");
    OneChunk("x", [], "stop");
    TwoChunks("x", "stop", d);
    FirstSettled(c);
    assert Settled([c]) && !Quiet([c, d]);
    LifeExactly(order, [c, d], fails);
  }

  // ---------------------------------------------------------------- the order in which tools are closed

  /** The item ids of the tools closed, in order. */
  function ClosedIds(es: seq<Event>): seq<nat> {
    if es == [] then []
    else ClosedIds(es[..|es| - 1]) + if es[|es| - 1].ArgsDone? then [es[|es| - 1].itemId] else []
  }

  lemma {:induction false} ClosedAppend(xs: seq<Event>, ys: seq<Event>)
    ensures ClosedIds(xs + ys) == ClosedIds(xs) + ClosedIds(ys)
  {
    if ys == [] {
      assert xs + ys == xs;
    } else {
      assert (xs + ys)[..|xs + ys| - 1] == xs + ys[..|ys| - 1];
      ClosedAppend(xs, ys[..|ys| - 1]);
    }
  }

  lemma {:induction false} NoneClosedYet(es: seq<Event>)
    requires forall k | 0 <= k < |es| :: !es[k].ArgsDone?
    ensures ClosedIds(es) == []
  {
    if es != [] { NoneClosedYet(es[..|es| - 1]); }
  }

  lemma OneClosed(e: Event)
    ensures ClosedIds([e]) == if e.ArgsDone? then [e.itemId] else []
  {
    assert [e][..0] == [];
  }

  lemma ClosesOne(tc: ToolCall)
    ensures ClosedIds(ToolClosing(tc)) == [tc.id]
  {
    hide ClosedIds;
    var closing := ToolClosing(tc);
    OneClosed(closing[0]);
    OneClosed(closing[1]);
    assert closing == [closing[0]] + [closing[1]];
    ClosedAppend([closing[0]], [closing[1]]);
  }

  lemma {:induction false} ClosedInOrder(st: State, indexes: seq<int>)
    requires forall i <- indexes :: i in st.calls
    ensures |ClosedIds(ToolsClosing(st, indexes))| == |indexes|
    ensures forall k | 0 <= k < |indexes| ::
              indexes[k] in indexes && ClosedIds(ToolsClosing(st, indexes))[k] == st.calls[indexes[k]].id
  {
    hide ClosedIds, ToolClosing;
    NoneClosedYet([]);
    if indexes != [] {
      var init, last := indexes[..|indexes| - 1], indexes[|indexes| - 1];
      assert last in indexes && forall i <- init :: i in indexes;
      ClosedInOrder(st, init);
      ClosesOne(st.calls[last]);
      ClosedAppend(ToolsClosing(st, init), ToolClosing(st.calls[last]));
    }
  }

  /** On a finish reason every tool is closed, and they are closed by ascending index. */
  lemma ClosedAscending(st: State, choice: Choice)
    requires Valid(st) && ToolIds(st) && choice.finishReason != ""
    ensures var (st', es) := ConvertChoice(st, choice);
            var ids := ClosedIds(es);
            && |ids| == |st'.order|
            && (forall k | 0 <= k < |ids| :: ids[k] < |st'.order|)
            && (forall j, k | 0 <= j < k < |ids| :: st'.order[ids[j]] < st'.order[ids[k]])
  {
    hide AddText, AddTools, TextClosing, ToolsClosing, Sorted, ClosedIds;
    TextSame(st, choice.content);
    var (st1, es) := AddText(st, choice.content);
    var (st2, fs) := AddTools(st1, choice.toolCalls);
    TextBrings(st, choice.content);
    ToolsBring(st1, choice.toolCalls);
    ToolsFit(st1, Broken, choice.toolCalls) by { assert Fits(st1, Broken); }
    var indexes := Sorted(st2.toolStarted);
    BothBring(es, fs);
    NoneClosedYet(es + fs);
    NoneClosedYet(TextClosing(st2)) by { TextClosesNoTool(st2); }
    ClosedAppend(es + fs, TextClosing(st2));
    ClosedAppend(es + fs + TextClosing(st2), ToolsClosing(st2, indexes));
    ClosedInOrder(st2, indexes);
    SameCount(indexes, st2.order, st2.calls.Keys);
    forall k | 0 <= k < |indexes|
      ensures st2.calls[indexes[k]].id < |st2.order| && st2.order[st2.calls[indexes[k]].id] == indexes[k]
    {
      assert indexes[k] in indexes;
      var r := Rank(st2, indexes[k]);
    }
  }

  lemma TextClosesNoTool(st: State)
    ensures forall k | 0 <= k < |TextClosing(st)| :: !TextClosing(st)[k].ArgsDone?
  {
  }

  lemma SameCount(xs: seq<int>, ys: seq<int>, s: set<int>)
    requires Enumerates(xs, s) && Enumerates(ys, s)
    ensures |xs| == |ys|
  {
    AsMany(xs, s);
    AsMany(ys, s);
  }

  lemma {:induction false} AsMany(xs: seq<int>, s: set<int>)
    requires Enumerates(xs, s)
    ensures |xs| == |s|
  {
    if xs != [] {
      var init, last := xs[..|xs| - 1], xs[|xs| - 1];
      assert last in xs && forall x <- init :: x in xs;
      assert xs == init + [last];
      AsMany(init, s - {last});
    } else if |s| > 0 {
      Inhabited(s);
    }
  }
}
