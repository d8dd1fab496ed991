/**
 Where the text stands among the blocks: what a client reads before the block of a tool call, and
 when that is all the text received before the call.
 */
module AnthropicOrder {
  import opened Wrappers
  import opened Text
  import opened OpenAiChunks
  import opened ThinkSplitter
  import opened AnthropicEvents
  import opened AnthropicEmitter
  import opened AnthropicConvert
  import opened AnthropicLaws

  lemma {:induction false} ToolsKept(e: Emitter, ops: seq<Op>, index: int)
    requires index in e.tools
    ensures index in EmitAll(e, ops).0.tools && EmitAll(e, ops).0.tools[index] == e.tools[index]
  {
    if ops != [] { ToolsKept(e, ops[..|ops| - 1], index); }
  }

  /** The text read before a new tool block, once the stream has gone on for as long as it may. */
  lemma TextStaysBefore(c: Client, g: Gist, input: int, e: Emitter, d: ToolDelta, post: seq<Op>)
    requires Understood(g, input, e, c) && d.index !in Tools(g.calls)
    requires !FeedAll(c, EmitAll(e, [Call(d)] + post).1).Rejected?
    ensures var x := EmitAll(e, [Call(d)] + post);
            var blocks := BlocksOf(FeedAll(c, x.1));
            && d.index in x.0.tools && x.0.tools[d.index] == |c.blocks| <= |blocks|
            && TextOf(blocks[..|c.blocks|]) == g.reading.before + g.reading.after
            && ThinkingOf(blocks[..|c.blocks|]) == g.reading.thinking
  {
    hide TextOf, ThinkingOf, FeedAll, EmitAll, Tools, ArgsOf, FirstOf, IdOf, Unnamed, IsToolBlock, Hit;
    AgreesStop(e, c);
    var stop := StopIfOpen(e);
    var (e1, call) := EmitCall(e, d);
    var rest := EmitAll(e1, post).1;
    EmitAppend(e, [Call(d)], post);
    EmitOnly(e, Call(d));
    ToolsKept(e1, post, d.index);
    assert call[..|stop.1|] == stop.1;
    assert call + rest == stop.1 + (call[|stop.1|..] + rest);
    FeedAppend(c, stop.1, call[|stop.1|..] + rest);
    ClosedStays(FeedAll(c, stop.1), call[|stop.1|..] + rest, |c.blocks|);
    assert c.blocks[..|c.blocks|] == c.blocks;
  }

  /** The body of a stream goes through every chunk. */
  lemma {:induction false} BodyThrough(P: seq<Chunk>, n: nat) returns (rest: seq<Op>)
    requires n < |P|
    ensures BodyOf(P) == BodyOf(P[..n]) + ChunkBody(P[..n], P[n]) + rest
  {
    hide ChunkBody;
    if n == |P| - 1 {
      rest := [];
    } else {
      var init := P[..|P| - 1];
      assert init[..n] == P[..n];
      var more := BodyThrough(init, n);
      rest := more + ChunkBody(init, P[|P| - 1]);
    }
  }

  lemma OnlyPlainFlushed(s: Splitter)
    ensures forall op <- FlushOps(s) :: op != Say(OpenThink)
  {
  }

  /** The operations of a stream: a start, the body of what was consumed, and more. */
  lemma StreamShape(cs: seq<Chunk>, fails: bool) returns (more: seq<Op>)
    requires cs != []
    ensures Consumed(cs) != []
    ensures StreamOps(cs, fails) == [Begin(PromptOf(cs[0].usage))] + BodyOf(Consumed(cs)) + more
    ensures forall op <- more :: op != Say(OpenThink)
  {
    hide LexAll, Consumed, BodyOf, FlushOps;
    LexShape(cs);
    var P := Consumed(cs);
    var (l, ops) := LexAll(cs);
    OnlyPlainFlushed(SplitAll(Contents(P)).0);
    OnlyPlainFlushed(l.think);
    var start := [Begin(PromptOf(cs[0].usage))];
    if l.finished {
      more := FlushOps(SplitAll(Contents(P)).0) + [LastOp(P)];
      assert start + ((BodyOf(P) + FlushOps(SplitAll(Contents(P)).0)) + [LastOp(P)]) == start + BodyOf(P) + more;
    } else if fails {
      more := [];
    } else {
      more := FinishLexer(l, "end_turn").1;
    }
  }

  /** Delta k of chunk n is the first one of its tool. */
  predicate Opens(P: seq<Chunk>, n: nat, k: nat) {
    && n < |P| && P[n].choices != [] && k < |P[n].choices[0].toolCalls|
    && P[n].choices[0].toolCalls[k].index !in Tools(Deltas(P[..n]) + P[n].choices[0].toolCalls[..k])
  }

  /** The operations before delta k of chunk n. */
  function BodyBefore(P: seq<Chunk>, n: nat, k: nat): seq<Op>
    requires Opens(P, n, k)
  {
    var choice := P[n].choices[0];
    BodyOf(P[..n]) + Says(Split(SplitAll(Contents(P[..n])).0, choice.content).1) + Calls(choice.toolCalls[..k])
  }

  lemma AroundTool(P: seq<Chunk>, n: nat, k: nat) returns (post: seq<Op>)
    requires Opens(P, n, k)
    ensures BodyOf(P) == BodyBefore(P, n, k) + [Call(P[n].choices[0].toolCalls[k])] + post
  {
    hide BodyOf, Split, SplitAll, Says, Calls, Tools;
    var ds := P[n].choices[0].toolCalls;
    var rest := BodyThrough(P, n);
    post := Calls(ds[k + 1..]) + rest;
    CallsApart(ds, k);
    Regroup(BodyOf(P[..n]), Says(Split(SplitAll(Contents(P[..n])).0, P[n].choices[0].content).1), Calls(ds[..k]),
            [Call(ds[k])], Calls(ds[k + 1..]), rest);
  }

  lemma CallsApart(ds: seq<ToolDelta>, k: nat)
    requires k < |ds|
    ensures Calls(ds) == Calls(ds[..k]) + [Call(ds[k])] + Calls(ds[k + 1..])
  {
  }

  lemma Regroup(a: seq<Op>, b: seq<Op>, c: seq<Op>, d: seq<Op>, e: seq<Op>, f: seq<Op>)
    ensures a + (b + (c + d + e)) + f == (a + b + c) + d + (e + f)
  {
  }

  lemma ProjectThree(body: seq<Op>, ps: seq<Piece>, calls: seq<ToolDelta>)
    ensures PiecesOf(body + Says(ps) + Calls(calls)) == PiecesOf(body) + ps
    ensures CallsOf(body + Says(ps) + Calls(calls)) == CallsOf(body) + calls
  {
    hide PiecesOf, CallsOf, Says, Calls;
    SaysProject(ps);
    CallsProject(calls);
    ProjectAppend(body + Says(ps), Calls(calls));
    ProjectAppend(body, Says(ps));
  }

  lemma ContentsSnoc(init: seq<Chunk>, c: Chunk)
    requires c.choices != []
    ensures Contents(init + [c]) == Contents(init) + [c.choices[0].content]
  {
    assert (init + [c])[..|init|] == init;
  }

  lemma ProjectBefore(P: seq<Chunk>, n: nat, k: nat)
    requires Opens(P, n, k)
    ensures var body := BodyBefore(P, n, k);
            && PiecesOf(body) == SplitAll(Contents(P[..n + 1])).1
            && CallsOf(body) == Deltas(P[..n]) + P[n].choices[0].toolCalls[..k]
  {
    hide BodyOf, PiecesOf, CallsOf, Split, SplitAll, Says, Calls, Tools, SaysAndCalls, Contents, Deltas;
    var init, c := P[..n], P[n];
    var ps, calls := Split(SplitAll(Contents(init)).0, c.choices[0].content).1, c.choices[0].toolCalls[..k];
    BodyProjects(init);
    ProjectThree(BodyOf(init), ps, calls);
    SplitAllSnoc(Contents(init), c.choices[0].content);
    assert P[..n + 1] == init + [c];
    ContentsSnoc(init, c);
  }


  lemma OnlySaid(P: seq<Chunk>, n: nat, k: nat)
    requires Opens(P, n, k)
    ensures forall op <- BodyBefore(P, n, k) :: op.Say? || op.Call?
  {
    hide BodyOf, Split, SplitAll, Says, Calls, Tools;
    BodyProjects(P[..n]);
    OnlySaysAndCalls(Split(SplitAll(Contents(P[..n])).0, P[n].choices[0].content).1, P[n].choices[0].toolCalls[..k]);
  }

  /** What a client has understood when a tool starts: all that the splitter let out so far. */
  lemma BeforeTool(input: int, P: seq<Chunk>, n: nat, k: nat)
    requires Opens(P, n, k)
    ensures var x := EmitAll(UNSTARTED, [Begin(input)] + BodyBefore(P, n, k));
            Understood(GistOf(BodyBefore(P, n, k)), input, x.0, FeedAll(Waiting, x.1))
    ensures var g := GistOf(BodyBefore(P, n, k));
            && g.reading == ReadingOf(Contents(P[..n + 1]))
            && g.calls == Deltas(P[..n]) + P[n].choices[0].toolCalls[..k]
  {
    hide EmitAll, FeedAll, Understood, BodyBefore, GistOf, PiecesOf, CallsOf, WellNested, SplitAll, Tools, ReadPieces;
    ProjectBefore(P, n, k);
    OnlySaid(P, n, k);
    PiecesNested(Contents(P[..n + 1]));
    GistProjects(BodyBefore(P, n, k));
    ReadBody(input, BodyBefore(P, n, k));
  }

  /** The blocks before the block of a tool hold the text and the thinking let out before the tool
      started. This is all the text received by then exactly when there was none, or `<think>` had
      been completed; otherwise the last six characters at most come after the tool. */
  lemma TextBeforeTool(cs: seq<Chunk>, fails: bool, n: nat, k: nat)
    requires cs != [] && Opens(Consumed(cs), n, k)
    ensures var P, blocks, at := Consumed(cs), BlocksOf(ClientOf(cs, fails)), ToolMap(cs, fails);
            var index, texts := P[n].choices[0].toolCalls[k].index, Contents(P[..n + 1]);
            var r := ReadingOf(texts);
            && index in at && at[index] < |blocks|
            && TextOf(blocks[..at[index]]) == r.before + r.after
            && ThinkingOf(blocks[..at[index]]) == r.thinking
            && (TextOf(blocks[..at[index]]) == PlainText(texts)
                <==> Concat(texts) == "" || Find(Concat(texts), OPEN).Some?)
  {
    hide TextOf, ThinkingOf, EmitAll, FeedAll, BodyOf, BodyBefore, Understood, GistOf, Consumed, StreamOps, Contents,
      ReadingOf, SplitAll, Tools, Conveys, CarriesTools;
    var P, input := Consumed(cs), PromptOf(cs[0].usage);
    var d := P[n].choices[0].toolCalls[k];
    var more := StreamShape(cs, fails);
    var body := BodyBefore(P, n, k);
    var post := AroundTool(P, n, k);
    BeforeTool(input, P, n, k);
    var start := [Begin(input)];
    assert StreamOps(cs, fails) == (start + body) + ([Call(d)] + (post + more));
    EmitAppend(UNSTARTED, start + body, [Call(d)] + (post + more));
    var x := EmitAll(UNSTARTED, start + body);
    var c := FeedAll(Waiting, x.1);
    FeedAppend(Waiting, x.1, EmitAll(x.0, [Call(d)] + (post + more)).1);
    CompleteExactly(cs, fails);
    TextStaysBefore(c, GistOf(body), input, x.0, d, post + more);
    ToolHasBlock(cs, fails, d.index);
    AllLetOut(Contents(P[..n + 1]));
  }

  lemma ToolHasBlock(cs: seq<Chunk>, fails: bool, index: int)
    requires cs != [] && index in ToolMap(cs, fails)
    ensures ToolMap(cs, fails)[index] < |BlocksOf(ClientOf(cs, fails))|
  {
    hide Consumed, ToolMap, ClientOf, Tools, IsToolBlock, Hit, Contents, Deltas, ReadingOf, PlainText, TextOf,
      ThinkingOf;
    if fails && !Ended(Consumed(cs)) {
      AnthropicStreamBroken(cs);
    } else {
      AnthropicStreamMeaning(cs, fails);
    }
  }

  /** Nothing is held back exactly when there is nothing to hold, or nothing to wait for. */
  lemma AllLetOut(texts: seq<string>)
    ensures var r := ReadingOf(texts);
            r.before + r.after == PlainText(texts) <==> Concat(texts) == "" || Find(Concat(texts), OPEN).Some?
  {
    hide Find, Concat, SplitAll, ReadingOf, WholeCloses;
    SplitterIsFaithful(texts);
    ModeRead(texts);
    var r, s := ReadingOf(texts), SplitAll(texts).0;
    assert r.before + "" + r.after == r.before + r.after;
    assert |PlainText(texts)| == |r.before + r.after| + if s.mode == Idle then |s.buffer| else 0;
    if Concat(texts) == "" { NothingIn(); }
  }

  /** Three characters stay in the lookback buffer. */
  lemma ThreeHeld()
    ensures ReadingOf(["abc", ""]).before == "" && ReadingOf(["abc", ""]).after == ""
  {
    hide Find, SplitAll, ReadingOf, WholeCloses;
    assert ["abc", ""] == ["abc"] + [""];
    ConcatSnoc(["abc"], "");
    OnlyFragment("abc");
    assert "abc" + "" == "abc";
    NotFound("abc", OPEN);
    SplitterIsFaithful(["abc", ""]);
  }

  lemma SecondOpens(c: Chunk, d: Chunk)
    requires c.choices != [] && c.choices[0].toolCalls == [] && d.choices != [] && d.choices[0].toolCalls != []
    requires !Ends(c) && !Ends(d)
    ensures Consumed([c, d]) == [c, d] && Opens([c, d], 1, 0)
    ensures Contents([c, d][..2]) == [c.choices[0].content, d.choices[0].content]
  {
    hide Consumed, Tools, Contents;
    TwoChunks(c, d);
    ReferenceSnoc([c], d);
    NoTools();
    assert [c] + [d] == [c, d] && [c, d][..2] == [c, d];
    assert c.choices[0].toolCalls + d.choices[0].toolCalls[..0] == [];
    assert [c.choices[0].content] + [d.choices[0].content] == [c.choices[0].content, d.choices[0].content];
  }

  /** Three characters, then a tool call: the client gets the tool block first. */
  lemma ToolOvertakesText(fails: bool)
    ensures var cs := [Single("abc", [], ""), Single("", [TOOL_START], "")];
            var blocks, at := BlocksOf(ClientOf(cs, fails)), ToolMap(cs, fails);
            0 in at && at[0] < |blocks| && TextOf(blocks[..at[0]]) == ""
  {
    hide ClientOf, ToolMap, Consumed, Tools, Contents, ReadingOf, TextOf, ThinkingOf, BlocksOf, Opens, PlainText;
    var c, d := Single("abc", [], ""), Single("", [TOOL_START], "");
    SecondOpens(c, d);
    TextBeforeTool([c, d], fails, 1, 0);
    ThreeHeld();
  }

  // ---------------------------------------------------------------- the thinking block among the text

  function Opened(ps: seq<Piece>): nat {
    if ps == [] then 0 else Opened(ps[..|ps| - 1]) + if ps[|ps| - 1].OpenThink? then 1 else 0
  }

  lemma {:induction false} OpenedAppend(ps: seq<Piece>, qs: seq<Piece>)
    ensures Opened(ps + qs) == Opened(ps) + Opened(qs)
  {
    if qs == [] {
      assert ps + qs == ps;
    } else {
      assert (ps + qs)[..|ps + qs| - 1] == ps + qs[..|qs| - 1];
      OpenedAppend(ps, qs[..|qs| - 1]);
    }
  }

  lemma OpenedOne(p: Piece)
    ensures Opened([p]) == if p.OpenThink? then 1 else 0
  {
    assert [p][..0] == [];
  }

  lemma NoneOpened()
    ensures Opened([]) == 0
  {
  }

  lemma SplitThinkingOpens(s: Splitter, text: string)
    ensures Opened(SplitThinking(s, text).1) == 0 && Opened(SplitDone(text)) == 0
  {
    hide Find, Opened;
    NoneOpened();
    OpenedOne(Plain(text));
    OpenedOne(Thought(text));
    if text != "" && Find(text, CLOSE).Some? {
      var j := Find(text, CLOSE).value;
      OpenedOne(Thought(text[..j]));
      OpenedOne(CloseThink);
      OpenedOne(Plain(text[j + |CLOSE|..]));
      OpenedAppend(if text[..j] == "" then [] else [Thought(text[..j])], [CloseThink]);
      OpenedAppend(Closing(text[..j]), SplitDone(text[j + |CLOSE|..]));
    }
  }

  /** One fragment opens a `<think>` exactly when the splitter stops being idle. */
  lemma SplitOpens(s: Splitter, text: string)
    ensures var (s', ps) := Split(s, text); Opened(ps) == if s.mode == Idle && s'.mode != Idle then 1 else 0
  {
    hide Find, Opened, SplitThinking, Blank;
    NoneOpened();
    if text != "" {
      SplitThinkingOpens(s, text);
      if s.mode == Idle {
        var buf := s.buffer + text;
        match Find(buf, OPEN)
        case None => if |buf| >= 7 { OpenedOne(Plain(buf[..|buf| - 6])); }
        case Some(i) =>
          var rest := buf[i + |OPEN|..];
          SplitThinkingOpens(Splitter(Thinking, ""), rest);
          ThinkingGoesOn(rest);
          OpenedOne(Plain(buf[..i]));
          OpenedOne(OpenThink);
          OpenedAppend(if Blank(buf[..i]) then [] else [Plain(buf[..i])], [OpenThink]);
          OpenedAppend(Opening(buf[..i]), SplitThinking(Splitter(Thinking, ""), rest).1);
      } else {
        StaysOutOfIdle(s, text);
      }
    }
  }

  lemma ThinkingGoesOn(text: string)
    ensures SplitThinking(Splitter(Thinking, ""), text).0.mode != Idle
  {
  }

  lemma StaysOutOfIdle(s: Splitter, text: string)
    requires s.mode != Idle
    ensures Split(s, text).0.mode != Idle
  {
  }

  lemma {:induction false} OpenedOnce(texts: seq<string>)
    ensures Opened(SplitAll(texts).1) == if ReadingOf(texts).began then 1 else 0
  {
    hide Split, ReadPieces, Opened;
    ModeRead(texts);
    if texts == [] {
      NoneOpened();
    } else {
      var init, t := texts[..|texts| - 1], texts[|texts| - 1];
      OpenedOnce(init);
      ModeRead(init);
      SplitOpens(SplitAll(init).0, t);
      OpenedAppend(SplitAll(init).1, Split(SplitAll(init).0, t).1);
      if SplitAll(init).0.mode != Idle { StaysOutOfIdle(SplitAll(init).0, t); }
    }
  }

  lemma EmitStarts(e: Emitter, op: Op)
    ensures ThinkingStarts(Emit(e, op).1) == if op == Say(OpenThink) then 1 else 0
  {
    var none: seq<Event> := [];
    assert ThinkingStarts(none) == 0;
    hide ThinkingStarts;
    forall x: Event ensures ThinkingStarts([x]) == if StartsThinking(x) then 1 else 0 { OneStart(x); }
    var stop := StopIfOpen(e).1;
    assert ThinkingStarts(stop) == 0;
    match op
    case Begin(input) =>
      assert Emit(e, op).1 == [MessageStart(input)] + [Ping];
      StartsAppend([MessageStart(input)], [Ping]);
    case Finish(reason, output) =>
      var events := [MessageDelta(reason, output)] + [MessageStop];
      assert Emit(e, op).1 == stop + events;
      StartsAppend([MessageDelta(reason, output)], [MessageStop]);
      StartsAppend(stop, events);
    case Say(p) => PieceStarts(e, p);
    case Call(d) => CallStarts(e, d);
  }

  lemma OneStart(x: Event)
    ensures ThinkingStarts([x]) == if StartsThinking(x) then 1 else 0
  {
    assert [x][..0] == [];
  }

  lemma StopStarts(e: Emitter)
    ensures ThinkingStarts(StopIfOpen(e).1) == 0
  {
    if e.open { OneStart(BlockStop(e.index)); }
  }

  lemma PieceStarts(e: Emitter, p: Piece)
    ensures ThinkingStarts(EmitPiece(e, p).1) == if p.OpenThink? then 1 else 0
  {
    hide ThinkingStarts;
    StopStarts(e);
    var (e1, stop) := StopIfOpen(e);
    match p
    case Thought(t) => OneStart(ThinkingDelta(e.index, t));
    case CloseThink => OneStart(BlockStop(e.index));
    case OpenThink =>
      OneStart(BlockStart(e1.index, ThinkingBlock));
      StartsAppend(stop, [BlockStart(e1.index, ThinkingBlock)]);
    case Plain(t) =>
      var start, delta := [BlockStart(e1.index, TextBlock)], [TextDelta(e1.index, t)];
      OneStart(start[0]);
      OneStart(delta[0]);
      OneStart(TextDelta(e.index, t));
      StartsAppend(stop, start);
      StartsAppend(stop + start, delta);
  }

  lemma CallStarts(e: Emitter, d: ToolDelta)
    ensures ThinkingStarts(EmitCall(e, d).1) == 0
  {
    var none: seq<Event> := [];
    assert ThinkingStarts(none) == 0;
    hide ThinkingStarts;
    StopStarts(e);
    var (e1, stop) := StopIfOpen(e);
    var x := if d.index in e.tools then (e, none) else StartTool(e, d);
    if d.index !in e.tools {
      OneStart(BlockStart(e1.index, ToolUse(if d.id != "" then Given(d.id) else Generated(e.generated), d.name)));
      StartsAppend(stop, x.1[|stop|..]);
      assert x.1 == stop + x.1[|stop|..];
    }
    if d.args != "" {
      var delta := InputJsonDelta(x.0.tools[d.index], d.args);
      OneStart(delta);
      StartsAppend(x.1, [delta]);
    }
  }

  lemma {:induction false} EmitAllStarts(e: Emitter, ops: seq<Op>)
    ensures ThinkingStarts(EmitAll(e, ops).1) == Opened(PiecesOf(ops))
  {
    hide Emit;
    if ops != [] {
      var init, op := ops[..|ops| - 1], ops[|ops| - 1];
      EmitAllStarts(e, init);
      EmitStarts(EmitAll(e, init).0, op);
      StartsAppend(EmitAll(e, init).1, Emit(EmitAll(e, init).0, op).1);
      if op.Say? { assert PiecesOf(ops)[..|PiecesOf(init)|] == PiecesOf(init); }
    }
  }

  lemma {:induction false} NothingOpens(ops: seq<Op>)
    requires forall op <- ops :: op != Say(OpenThink)
    ensures Opened(PiecesOf(ops)) == 0
  {
    if ops != [] {
      var init, op := ops[..|ops| - 1], ops[|ops| - 1];
      assert op in ops && forall o <- init :: o in ops;
      NothingOpens(init);
      if op.Say? { assert PiecesOf(ops)[..|PiecesOf(init)|] == PiecesOf(init); }
    }
  }

  /** The one operation that opens a `<think>`: what was read as text before it is final. */
  lemma {:induction false} WhereOpened(body: seq<Op>) returns (k: nat)
    requires GistOf(body).reading.began
    ensures k < |body| && body[k] == Say(OpenThink) && !GistOf(body[..k]).reading.began
    ensures GistOf(body).reading.before == GistOf(body[..k]).reading.before
  {
    var init := body[..|body| - 1];
    if GistOf(init).reading.began {
      k := WhereOpened(init);
      assert init[..k] == body[..k];
    } else {
      k := |body| - 1;
    }
  }

  lemma {:induction false} BodyPrefix(body: seq<Op>, k: nat)
    requires IsBody(body) && k <= |body|
    ensures IsBody(body[..k])
  {
    if k == |body| {
      assert body[..k] == body;
    } else {
      var init, op := body[..|body| - 1], body[|body| - 1];
      assert body == init + [op] && init[..k] == body[..k];
      if op.Say? { assert PiecesOf(body)[..|PiecesOf(init)|] == PiecesOf(init); }
      BodyPrefix(init, k);
    }
  }

  /** A thinking block keeps its place and the text before it. */
  lemma ThinkingStays(c: Client, g: Gist, input: int, e: Emitter, post: seq<Op>)
    requires Understood(g, input, e, c)
    requires !FeedAll(c, EmitAll(e, [Say(OpenThink)] + post).1).Rejected?
    ensures var blocks := BlocksOf(FeedAll(c, EmitAll(e, [Say(OpenThink)] + post).1));
            && |c.blocks| < |blocks| && blocks[|c.blocks|].kind.ThinkingBlock?
            && TextOf(blocks[..|c.blocks|]) == g.reading.before + g.reading.after
  {
    hide TextOf, ThinkingOf, FeedAll, EmitAll, Tools;
    AgreesStop(e, c);
    var (e0, stop) := StopIfOpen(e);
    var start := BlockStart(e0.index, ThinkingBlock);
    var rest := EmitAll(EmitOpenThink(e).0, post).1;
    EmitAppend(e, [Say(OpenThink)], post);
    EmitOnly(e, Say(OpenThink));
    assert EmitOpenThink(e).1 + rest == stop + ([start] + rest);
    FeedAppend(c, stop, [start] + rest);
    var c1 := FeedAll(c, stop);
    ClosedStays(c1, [start] + rest, |c.blocks|);
    assert c.blocks[..|c.blocks|] == c.blocks;
    FeedAppend(c1, [start], rest);
    FeedOne(c1, start);
    KindsStay(Feed(c1, start), rest);
  }

  lemma ThinkingIsPlaced(cs: seq<Chunk>, fails: bool) returns (b: nat)
    requires cs != [] && ReadingOf(Contents(Consumed(cs))).began
    ensures var blocks := BlocksOf(ClientOf(cs, fails));
            && b < |blocks| && blocks[b].kind.ThinkingBlock?
            && TextOf(blocks[..b]) == ReadingOf(Contents(Consumed(cs))).before
  {
    hide TextOf, ThinkingOf, EmitAll, FeedAll, BodyOf, PiecesOf, CallsOf, Understood, GistOf, Consumed, StreamOps,
      IsBody, SplitAll, Tools, ReadPieces, Conveys, CarriesTools, Contents;
    var P, input := Consumed(cs), PromptOf(cs[0].usage);
    var body, start := BodyOf(P), [Begin(input)];
    var more := StreamShape(cs, fails);
    BodyProjects(P);
    GistProjects(body);
    BodyGist(P);
    var k := WhereOpened(body);
    BodyPrefix(body, k);
    ReadBody(input, body[..k]);
    var x := EmitAll(UNSTARTED, start + body[..k]);
    var c, post := FeedAll(Waiting, x.1), body[k + 1..] + more;
    assert body == body[..k] + [Say(OpenThink)] + body[k + 1..];
    assert StreamOps(cs, fails) == (start + body[..k]) + ([Say(OpenThink)] + post);
    EmitAppend(UNSTARTED, start + body[..k], [Say(OpenThink)] + post);
    FeedAppend(Waiting, x.1, EmitAll(x.0, [Say(OpenThink)] + post).1);
    CompleteExactly(cs, fails);
    ThinkingStays(c, GistOf(body[..k]), input, x.0, post);
    NothingAfter(GistOf(body[..k]), input, x.0, c);
    b := |c.blocks|;
  }

  lemma NothingAfter(g: Gist, input: int, e: Emitter, c: Client)
    requires Understood(g, input, e, c) && !g.reading.began
    ensures c.Receiving? && g.reading.before + g.reading.after == g.reading.before
  {
    assert g.reading.before + "" == g.reading.before;
  }

  lemma ThinkingIsCounted(cs: seq<Chunk>, fails: bool)
    requires cs != []
    ensures ThinkingBlocks(BlocksOf(ClientOf(cs, fails))) == if ReadingOf(Contents(Consumed(cs))).began then 1 else 0
  {
    hide EmitAll, FeedAll, BodyOf, PiecesOf, Consumed, StreamOps, SplitAll, ReadPieces, Contents, ThinkingStarts,
      Opened, ReadingOf;
    var P := Consumed(cs);
    var start := [Begin(PromptOf(cs[0].usage))];
    var more := StreamShape(cs, fails);
    BodyProjects(P);
    OpenedOnce(Contents(P));
    NothingOpens(start);
    NothingOpens(more);
    ProjectAppend(start + BodyOf(P), more);
    ProjectAppend(start, BodyOf(P));
    OpenedAppend(PiecesOf(start) + PiecesOf(BodyOf(P)), PiecesOf(more));
    OpenedAppend(PiecesOf(start), PiecesOf(BodyOf(P)));
    EmitAllStarts(UNSTARTED, StreamOps(cs, fails));
    CompleteExactly(cs, fails);
    KindsStay(Waiting, StreamEvents(cs, fails));
  }

  /** Over every stream there is one thinking block if `<think>` was completed and none otherwise,
      and the blocks before it hold the text before the tag, those after it the text after. */
  lemma ThinkingPlaced(cs: seq<Chunk>, fails: bool)
    requires cs != []
    ensures var blocks, r := BlocksOf(ClientOf(cs, fails)), ReadingOf(Contents(Consumed(cs)));
            && ThinkingBlocks(blocks) == (if r.began then 1 else 0)
            && (forall b | 0 <= b < |blocks| && blocks[b].kind.ThinkingBlock? ::
                  TextOf(blocks[..b]) == r.before && TextOf(blocks[b..]) == r.after)
  {
    hide TextOf, ThinkingBlocks, ReadingOf, Contents, Consumed, ClientOf, BlocksOf;
    var blocks, r := BlocksOf(ClientOf(cs, fails)), ReadingOf(Contents(Consumed(cs)));
    ThinkingIsCounted(cs, fails);
    forall b | 0 <= b < |blocks| && blocks[b].kind.ThinkingBlock?
      ensures TextOf(blocks[..b]) == r.before && TextOf(blocks[b..]) == r.after
    {
      SomeThinking(blocks, b);
      var a := ThinkingIsPlaced(cs, fails);
      if a < b { OnlyThinking(blocks, a, b); }
      if b < a { OnlyThinking(blocks, b, a); }
      TextApart(blocks, b);
      AllText(cs, fails);
      assert TextOf(blocks) == r.before + r.after;
      assert TextOf(blocks)[|r.before|..] == r.after;
    }
  }

  lemma AllText(cs: seq<Chunk>, fails: bool)
    requires cs != [] && ReadingOf(Contents(Consumed(cs))).began
    ensures var r := ReadingOf(Contents(Consumed(cs))); TextOf(BlocksOf(ClientOf(cs, fails))) == r.before + r.after
  {
    hide TextOf, ReadingOf, Contents, Consumed, ClientOf, SplitAll;
    var r := ReadingOf(Contents(Consumed(cs)));
    ModeRead(Contents(Consumed(cs)));
    assert r.before + "" == r.before;
    if fails && !Ended(Consumed(cs)) {
      AnthropicStreamBroken(cs);
    } else {
      AnthropicStreamMeaning(cs, fails);
    }
  }
}
