/**
 What the Anthropic stream means to a client, for every list of upstream chunks: the event
 grammar, and what is left of the text, the thinking and the tool calls received.
 */
module AnthropicLaws {
  import opened Wrappers
  import opened Text
  import opened OpenAiChunks
  import opened ThinkSplitter
  import opened AnthropicEvents
  import opened AnthropicEmitter
  import opened AnthropicConvert

  // ---------------------------------------------------------------- the part of the stream that counts

  /** The chunk after which the converter is finished: one with a finish reason, or one with
      usage and no choices. */
  predicate Ends(c: Chunk) {
    if c.choices == [] then c.usage.Some? else c.choices[0].finishReason != ""
  }

  predicate Ended(cs: seq<Chunk>) {
    cs != [] && Ends(cs[|cs| - 1])
  }

  /** The chunks up to and including the first one that ends the stream. */
  function Consumed(cs: seq<Chunk>): seq<Chunk> {
    if cs == [] then []
    else
      var init := Consumed(cs[..|cs| - 1]);
      if Ended(init) then init else init + [cs[|cs| - 1]]
  }

  function OutputTokens(cs: seq<Chunk>): int {
    if LastUsage(cs).Some? then LastUsage(cs).value.completionTokens else 0
  }

  /** The stop reason a consumed stream calls for; a stream cut short counts as a finished turn. */
  function StopOf(cs: seq<Chunk>): string {
    if Ended(cs) && cs[|cs| - 1].choices != [] then StopReason(cs[|cs| - 1].choices[0].finishReason) else "end_turn"
  }

  /** The finish reason that ended the stream; empty if there was none. */
  function EndReason(cs: seq<Chunk>): string {
    if Ended(cs) && cs[|cs| - 1].choices != [] then cs[|cs| - 1].choices[0].finishReason else ""
  }

  /** What a client is told about why the stream ended. */
  predicate TellsWhy(stopReason: string, cs: seq<Chunk>) {
    && (stopReason == "tool_use" <==> EndReason(cs) == "tool_calls")
    && (stopReason == "max_tokens" <==> EndReason(cs) in {"length", "max_tokens"})
    && (stopReason == "end_turn" <==> EndReason(cs) !in {"tool_calls", "length", "max_tokens"})
  }

  lemma StopTellsWhy(cs: seq<Chunk>)
    ensures TellsWhy(StopOf(cs), cs)
  {
    hide Ended;
  }

  /** The prompt tokens a client is told at the start: those of the first chunk, if it has usage. */
  function FirstPrompt(cs: seq<Chunk>): int
    requires cs != []
  {
    match cs[0].usage
    case Some(u) => u.promptTokens
    case None => 0
  }

  /** The operations a chunk adds for its text and tool calls. */
  function ChunkBody(earlier: seq<Chunk>, c: Chunk): seq<Op> {
    if c.choices == [] then []
    else Says(Split(SplitAll(Contents(earlier)).0, c.choices[0].content).1) + Calls(c.choices[0].toolCalls)
  }

  /** The operations for text and tool calls, without start and finish. */
  function BodyOf(cs: seq<Chunk>): seq<Op> {
    if cs == [] then [] else BodyOf(cs[..|cs| - 1]) + ChunkBody(cs[..|cs| - 1], cs[|cs| - 1])
  }

  /** The body, with what is still in the lookback buffer at the end of the stream. */
  function FullBody(cs: seq<Chunk>): seq<Op> {
    BodyOf(cs) + FlushOps(SplitAll(Contents(cs)).0)
  }

  function LastOp(cs: seq<Chunk>): Op {
    Finish(StopOf(cs), OutputTokens(cs))
  }

  // ---------------------------------------------------------------- the operations of a stream

  lemma SplitAllSnoc(texts: seq<string>, t: string)
    ensures var (s, ps) := Split(SplitAll(texts).0, t);
            SplitAll(texts + [t]) == (s, SplitAll(texts).1 + ps)
  {
    assert (texts + [t])[..|texts|] == texts;
  }

  lemma ReferenceSnoc(init: seq<Chunk>, c: Chunk)
    ensures var cs := init + [c];
            && Contents(cs) == Contents(init) + (if c.choices == [] then [] else [c.choices[0].content])
            && Deltas(cs) == Deltas(init) + (if c.choices == [] then [] else c.choices[0].toolCalls)
            && BodyOf(cs) == BodyOf(init) + ChunkBody(init, c)
            && OutputTokens(cs) == (if c.usage.Some? then c.usage.value.completionTokens else OutputTokens(init))
            && Consumed(cs) == (if Ended(Consumed(init)) then Consumed(init) else Consumed(init) + [c])
  {
    assert (init + [c])[..|init|] == init;
  }

  lemma NoBody(init: seq<Chunk>, c: Chunk)
    requires c.choices == []
    ensures ChunkBody(init, c) == []
  {
  }

  lemma ChoiceLexed(init: seq<Chunk>, c: Chunk, l: Lexer)
    requires c.choices != [] && l.think == SplitAll(Contents(init)).0 && !l.finished
    ensures var choice := c.choices[0];
            var (s, (l', ops)) := (Split(l.think, choice.content).0, LexChoice(l, choice));
            && l'.started == l.started && l'.finished == Ends(c)
            && (!Ends(c) ==> l' == l.(think := s))
            && ops == ChunkBody(init, c)
                      + if Ends(c) then FlushOps(s) + [Finish(StopReason(choice.finishReason), l.outputTokens)] else []
  {
    hide Split, SplitAll, Says, Calls, FlushOps, StopReason, Contents;
    assert ChunkBody(init, c) + [] == ChunkBody(init, c);
  }

  lemma NewLastOp(init: seq<Chunk>, c: Chunk)
    requires Ends(c)
    ensures LastOp(init + [c])
            == Finish(if c.choices == [] then "end_turn" else StopReason(c.choices[0].finishReason),
                      OutputTokens(init + [c]))
  {
  }

  /** What one more chunk makes the lexer do, when no earlier one ended the stream. */
  lemma LexStep(init: seq<Chunk>, c: Chunk, l: Lexer)
    requires l.started == (init != []) && !l.finished
    requires l.outputTokens == OutputTokens(init) && l.think == SplitAll(Contents(init)).0
    ensures var cs := init + [c];
            var (l', ops) := LexChunk(l, c);
            && l'.started && l'.finished == Ends(c)
            && (!Ends(c) ==> l'.outputTokens == OutputTokens(cs) && l'.think == SplitAll(Contents(cs)).0)
            && ops == (if init == [] then [Begin(PromptOf(c.usage))] else []) + ChunkBody(init, c)
                      + (if Ends(c) then FlushOps(SplitAll(Contents(cs)).0) + [LastOp(cs)] else [])
  {
    hide Split, SplitAll, Says, Calls, FlushOps, StopReason, Contents, LastUsage, OutputTokens, Deltas, BodyOf,
      Consumed, LexChoice, ChunkBody, LastOp;
    ReferenceSnoc(init, c);
    if Ends(c) { NewLastOp(init, c); }
    var start := if l.started then [] else [Begin(PromptOf(c.usage))];
    var l1 := SeeUsage(l, c.usage).(started := true);
    if c.choices == [] {
      NoBody(init, c);
      assert Contents(init) + [] == Contents(init);
      assert start + [] == start && start + [] + [] == start;
    } else {
      SplitAllSnoc(Contents(init), c.choices[0].content);
      ChoiceLexed(init, c, l1);
      var body := ChunkBody(init, c);
      assert start + (body + []) == start + body == start + body + [];
      var flush := FlushOps(SplitAll(Contents(init + [c])).0) + [LastOp(init + [c])];
      assert start + (body + flush) == start + body + flush;
    }
  }


  /** The operations for a stream that starts with chunk c and of which P was consumed. */
  function ShapeOf(c: Chunk, P: seq<Chunk>): seq<Op> {
    [Begin(PromptOf(c.usage))] + (if Ended(P) then FullBody(P) + [LastOp(P)] else BodyOf(P))
  }

  ghost predicate Lexed(cs: seq<Chunk>, P: seq<Chunk>, l: Lexer, ops: seq<Op>)
    requires cs != []
  {
    && P != [] && P[0] == cs[0]
    && l.started && l.finished == Ended(P)
    && ops == ShapeOf(cs[0], P)
    && (!l.finished ==> P == cs && l.think == SplitAll(Contents(P)).0 && l.outputTokens == OutputTokens(P))
  }

  lemma Regroup<T>(first: seq<T>, body: seq<T>, more: seq<T>, flush: seq<T>, last: seq<T>)
    ensures (first + body) + ([] + more + (flush + last)) == first + ((body + more) + flush + last)
    ensures (first + body) + ([] + more + []) == first + (body + more)
    ensures [] + (first + more + (flush + last)) == first + (([] + more) + flush + last)
    ensures [] + (first + more + []) == first + ([] + more)
  {
  }

  /** The operations of a stream: a start, the body, and the finish once the stream has ended. */
  lemma {:induction false} LexShape(cs: seq<Chunk>)
    requires cs != []
    ensures Lexed(cs, Consumed(cs), LexAll(cs).0, LexAll(cs).1)
  {
    hide LexAll, LexChunk, Consumed, BodyOf, Lexed, Contents, Deltas, OutputTokens, SplitAll;
    var init, c := cs[..|cs| - 1], cs[|cs| - 1];
    assert init + [c] == cs;
    LexAllSnoc(init, c);
    ReferenceSnoc(init, c);
    NoChunks();
    if init != [] { LexShape(init); }
    LexMore(init, c, LexAll(init).0, LexAll(init).1);
  }

  lemma LexAllSnoc(init: seq<Chunk>, c: Chunk)
    ensures var (l, ops) := LexAll(init);
            var (l', more) := LexChunk(l, c);
            LexAll(init + [c]) == (l', ops + more)
  {
    assert (init + [c])[..|init|] == init;
  }

  lemma LexMore(init: seq<Chunk>, c: Chunk, l: Lexer, ops: seq<Op>)
    requires if init == [] then (l, ops) == (NEW_LEXER, []) else Lexed(init, Consumed(init), l, ops)
    ensures var (l', more) := LexChunk(l, c);
            Lexed(init + [c], Consumed(init + [c]), l', ops + more)
  {
    hide LexChunk, SplitAll, FlushOps, ChunkBody, Contents, LastUsage, StopOf, BodyOf, Consumed, OutputTokens;
    NoChunks();
    ReferenceSnoc(init, c);
    if l.finished {
      LexFinished(l, c);
      assert ops + [] == ops;
    } else {
      LexStep(init, c, l);
      var cs := init + [c];
      assert cs[..|init|] == init && cs[0] == if init == [] then c else init[0];
      Regroup([Begin(PromptOf(cs[0].usage))], BodyOf(init), ChunkBody(init, c), FlushOps(SplitAll(Contents(cs)).0),
              [LastOp(cs)]);
    }
  }

  lemma NoChunks()
    ensures LexAll([]) == (NEW_LEXER, []) && Contents([]) == [] && SplitAll([]) == (FRESH, []) && BodyOf([]) == []
    ensures OutputTokens([]) == 0 && Consumed([]) == []
  {
  }

  lemma LexFinished(l: Lexer, c: Chunk)
    requires l.finished
    ensures LexChunk(l, c) == (l, [])
  {
  }

  // ---------------------------------------------------------------- the body says what was received

  ghost predicate SaysAndCalls(ops: seq<Op>) {
    forall op <- ops :: op.Say? || op.Call?
  }

  lemma {:induction false} SaysProject(ps: seq<Piece>)
    ensures PiecesOf(Says(ps)) == ps && CallsOf(Says(ps)) == []
  {
    if ps != [] {
      assert Says(ps)[..|ps| - 1] == Says(ps[..|ps| - 1]);
      SaysProject(ps[..|ps| - 1]);
    }
  }

  lemma {:induction false} CallsProject(ds: seq<ToolDelta>)
    ensures PiecesOf(Calls(ds)) == [] && CallsOf(Calls(ds)) == ds
  {
    if ds != [] {
      assert Calls(ds)[..|ds| - 1] == Calls(ds[..|ds| - 1]);
      CallsProject(ds[..|ds| - 1]);
    }
  }

  lemma NoOps()
    ensures PiecesOf([]) == [] && CallsOf([]) == []
  {
  }

  lemma OnlySaysAndCalls(ps: seq<Piece>, ds: seq<ToolDelta>)
    ensures SaysAndCalls(Says(ps) + Calls(ds))
  {
  }

  lemma ChunkProjects(init: seq<Chunk>, c: Chunk)
    ensures var body := ChunkBody(init, c);
            && PiecesOf(body) == (if c.choices == [] then []
                                  else Split(SplitAll(Contents(init)).0, c.choices[0].content).1)
            && CallsOf(body) == (if c.choices == [] then [] else c.choices[0].toolCalls)
            && SaysAndCalls(body)
  {
    hide Split, SplitAll, Says, Calls, PiecesOf, CallsOf;
    NoOps();
    if c.choices != [] {
      var ps := Split(SplitAll(Contents(init)).0, c.choices[0].content).1;
      ProjectAppend(Says(ps), Calls(c.choices[0].toolCalls));
      SaysProject(ps);
      CallsProject(c.choices[0].toolCalls);
      OnlySaysAndCalls(ps, c.choices[0].toolCalls);
    }
  }

  lemma {:induction false} BodyProjects(cs: seq<Chunk>)
    ensures PiecesOf(BodyOf(cs)) == SplitAll(Contents(cs)).1
    ensures CallsOf(BodyOf(cs)) == Deltas(cs)
    ensures SaysAndCalls(BodyOf(cs))
  {
    hide Split, SplitAll, ChunkBody, PiecesOf, CallsOf;
    if cs == [] {
      NoChunks();
      NoOps();
    } else {
      var init, c := cs[..|cs| - 1], cs[|cs| - 1];
      BodyProjects(init);
      ChunkProjects(init, c);
      ProjectAppend(BodyOf(init), ChunkBody(init, c));
      if c.choices != [] { SplitAllSnoc(Contents(init), c.choices[0].content); }
    }
  }

  // ---------------------------------------------------------------- pieces are well nested

  lemma NestSnoc(ps: seq<Piece>, p: Piece)
    requires WellNested(ps) && (p.Thought? || p.CloseThink? ==> InThink(ReadPieces(NOTHING_READ, ps)))
    ensures WellNested(ps + [p]) && ReadPieces(NOTHING_READ, ps + [p]) == ReadPiece(ReadPieces(NOTHING_READ, ps), p)
  {
    assert (ps + [p])[..|ps|] == ps;
  }

  lemma NestDone(ps: seq<Piece>, text: string)
    requires WellNested(ps)
    ensures WellNested(ps + SplitDone(text))
  {
    if text == "" { assert ps + [] == ps; } else { NestSnoc(ps, Plain(text)); }
  }

  lemma NestThinking(ps: seq<Piece>, s: Splitter, text: string)
    requires WellNested(ps) && InThink(ReadPieces(NOTHING_READ, ps))
    ensures WellNested(ps + SplitThinking(s, text).1)
  {
    hide Find, WellNested, ReadPieces, SplitDone;
    if text == "" {
      assert ps + [] == ps;
    } else {
      match Find(text, CLOSE)
      case None => NestSnoc(ps, Thought(text));
      case Some(j) =>
        var thought, rest := text[..j], SplitDone(text[j + |CLOSE|..]);
        var ps1 := if thought == "" then ps else ps + [Thought(thought)];
        if thought != "" { NestSnoc(ps, Thought(thought)); }
        NestSnoc(ps1, CloseThink);
        NestDone(ps1 + [CloseThink], text[j + |CLOSE|..]);
        assert ps + (Closing(thought) + rest) == ps1 + [CloseThink] + rest;
    }
  }

  lemma NestIdle(ps: seq<Piece>, s: Splitter, text: string)
    requires WellNested(ps) && !ReadPieces(NOTHING_READ, ps).ended
    ensures WellNested(ps + SplitIdle(s, text).1)
  {
    hide Find, WellNested, ReadPieces, SplitThinking, Blank;
    var buf := s.buffer + text;
    match Find(buf, OPEN)
    case None =>
      if |buf| >= 7 { NestSnoc(ps, Plain(buf[..|buf| - 6])); } else { assert ps + [] == ps; }
    case Some(i) =>
      var before := buf[..i];
      var ps1 := if Blank(before) then ps else ps + [Plain(before)];
      if !Blank(before) { NestSnoc(ps, Plain(before)); }
      NestSnoc(ps1, OpenThink);
      var rest := SplitThinking(Splitter(Thinking, ""), buf[i + |OPEN|..]).1;
      NestThinking(ps1 + [OpenThink], Splitter(Thinking, ""), buf[i + |OPEN|..]);
      assert ps + (Opening(before) + rest) == ps1 + [OpenThink] + rest;
  }

  /** The mode of the splitter tells what has been read. */
  lemma ModeRead(texts: seq<string>)
    ensures var s, r := SplitAll(texts).0, ReadingOf(texts);
            (s.mode == Idle ==> !r.began && !r.ended && r.after == "")
            && (s.mode == Thinking ==> InThink(r)) && (s.mode == Done ==> r.began && r.ended)
  {
    hide Find, SplitAll, ReadingOf, WholeCloses;
    SplitterIsFaithful(texts);
  }

  lemma {:induction false} PiecesNested(texts: seq<string>)
    ensures WellNested(SplitAll(texts).1)
  {
    hide SplitIdle, SplitThinking, SplitDone, WellNested, ReadPieces;
    if texts == [] {
      NothingNested();
    } else {
      var init, t := texts[..|texts| - 1], texts[|texts| - 1];
      var (s, ps) := SplitAll(init);
      PiecesNested(init);
      ModeRead(init);
      if t == "" {
        assert ps + [] == ps;
      } else {
        match s.mode
        case Idle => NestIdle(ps, s, t);
        case Thinking => NestThinking(ps, s, t);
        case Done => NestDone(ps, t);
      }
    }
  }

  lemma NothingNested()
    ensures WellNested([])
  {
  }

  // ---------------------------------------------------------------- what the client ends up with

  lemma FullBodyGist(cs: seq<Chunk>)
    ensures IsBody(FullBody(cs))
    ensures GistOf(FullBody(cs)).calls == Deltas(cs)
    ensures var r := GistOf(FullBody(cs)).reading;
            r.before + r.after == PlainText(Contents(cs)) && r.thinking == ReadingOf(Contents(cs)).thinking
  {
    hide SplitAll, BodyOf, PiecesOf, CallsOf, WellNested, GistOf, ReadPieces;
    var (s, ps) := SplitAll(Contents(cs));
    var flush := FlushOps(s);
    BodyProjects(cs);
    PiecesNested(Contents(cs));
    ModeRead(Contents(cs));
    GistProjects(FullBody(cs));
    ProjectAppend(BodyOf(cs), flush);
    NoOps();
    if flush == [] {
      assert ps + [] == ps;
    } else {
      PieceAlone(Plain(s.buffer));
      NestSnoc(ps, Plain(s.buffer));
    }
    var r := ReadingOf(Contents(cs));
    assert r.before + "" + r.after == r.before + r.after;
    assert (r.before + s.buffer) + "" == r.before + s.buffer;
  }

  lemma PieceAlone(p: Piece)
    ensures PiecesOf([Say(p)]) == [p] && CallsOf([Say(p)]) == []
  {
    assert [Say(p)][..0] == [];
  }

  lemma BodyGist(cs: seq<Chunk>)
    ensures IsBody(BodyOf(cs))
  {
    BodyProjects(cs);
    PiecesNested(Contents(cs));
  }

  /** Reading a start, then a body. */
  lemma ReadBody(input: int, body: seq<Op>)
    requires IsBody(body)
    ensures var x := EmitAll(UNSTARTED, [Begin(input)] + body);
            Understood(GistOf(body), input, x.0, FeedAll(Waiting, x.1))
  {
    hide Understood, GistOf, EmitAll, FeedAll, IsBody;
    var first, rest := [MessageStart(input), Ping], EmitAll(UNSTARTED, body);
    EmitBegin(UNSTARTED, input);
    EmitAppend(UNSTARTED, [Begin(input)], body);
    FeedAppend(Waiting, first, rest.1);
    assert FeedAll(Waiting, first) == Receiving(input, [], false, false) by {
      assert first == [MessageStart(input)] + [Ping];
      FeedAppend(Waiting, [MessageStart(input)], [Ping]);
      FeedOne(Waiting, MessageStart(input));
      FeedOne(Receiving(input, [], false, false), Ping);
    }
    BodyUnderstood(body, input);
  }

  /** Reading the finish. */
  lemma ReadFinish(g: Gist, input: int, e: Emitter, c: Client, stop: string, output: int)
    requires Understood(g, input, e, c)
    ensures var x := EmitFinish(e, stop, output);
            x.0.tools == e.tools && FeedAll(c, x.1) == Complete(Message(input, c.blocks, stop, output), c.stray)
  {
    hide FeedAll, CarriesTools, TextOf, ThinkingOf, FocusIs;
    AgreesStop(e, c);
    var x := StopIfOpen(e);
    var c1 := FeedAll(c, x.1);
    var delta := MessageDelta(stop, output);
    FeedAppend(c, x.1, [delta, MessageStop]);
    assert [delta, MessageStop] == [delta] + [MessageStop];
    FeedAppend(c1, [delta], [MessageStop]);
    FeedOne(c1, delta);
    FeedOne(Feed(c1, delta), MessageStop);
  }

  /** The message a client holds agrees with the chunks it was made from: the text and the
      thinking are what the splitter must read, every tool has its own block with the id, name
      and arguments received, and the closing data are those of the consumed chunks. */
  ghost predicate Conveys(m: Message, at: map<int, nat>, cs: seq<Chunk>)
    requires cs != []
  {
    && m.inputTokens == FirstPrompt(cs)
    && TellsWhy(m.stopReason, cs) && m.outputTokens == OutputTokens(cs)
    && TextOf(m.blocks) == PlainText(Contents(cs))
    && ThinkingOf(m.blocks) == ReadingOf(Contents(cs)).thinking
    && CarriesTools(at, m.blocks, Deltas(cs))
  }

  lemma ReadAll(c: Chunk, P: seq<Chunk>)
    requires P != [] && P[0] == c
    ensures var x := EmitAll(UNSTARTED, [Begin(PromptOf(c.usage))] + (FullBody(P) + [LastOp(P)]));
            var client := FeedAll(Waiting, x.1);
            && client.Complete? && Conveys(client.message, x.0.tools, P)
            && client.stray == !GistOf(FullBody(P)).orderly
  {
    hide GistOf, EmitAll, FeedAll, FullBody, IsBody, CarriesTools, TextOf, ThinkingOf, Agrees, EmitFinish,
      StopOf, OutputTokens, Contents, Deltas, ReadingOf, PlainText, FocusIs, TellsWhy;
    StopTellsWhy(P);
    var start := [Begin(PromptOf(c.usage))];
    var body := start + FullBody(P);
    FullBodyGist(P);
    ReadBody(PromptOf(c.usage), FullBody(P));
    var x := EmitAll(UNSTARTED, body);
    ReadFinish(GistOf(FullBody(P)), PromptOf(c.usage), x.0, FeedAll(Waiting, x.1), StopOf(P), OutputTokens(P));
    assert start + (FullBody(P) + [LastOp(P)]) == body + [LastOp(P)];
    EmitSnoc(UNSTARTED, body, LastOp(P));
    FeedAppend(Waiting, x.1, Emit(x.0, LastOp(P)).1);
  }

  /** The map from tool index to block index at the end of a stream. */
  function ToolMap(cs: seq<Chunk>, fails: bool): map<int, nat> {
    EmitAll(UNSTARTED, StreamOps(cs, fails)).0.tools
  }

  function ClientOf(cs: seq<Chunk>, fails: bool): Client {
    FeedAll(Waiting, StreamEvents(cs, fails))
  }

  /** For every stream of at least one chunk, however odd, the client accepts every event, ends
      with a complete message (so nothing follows `message_stop`), and holds all that was
      received. Deltas go to an open block of their own kind exactly when the stream is orderly. */
  lemma AnthropicStreamMeaning(cs: seq<Chunk>, fails: bool)
    requires cs != [] && (fails ==> Ended(Consumed(cs)))
    ensures Consumed(cs) != []
    ensures var client := ClientOf(cs, fails);
            && client.Complete? && Conveys(client.message, ToolMap(cs, fails), Consumed(cs))
            && (client.stray <==> !GistOf(FullBody(Consumed(cs))).orderly)
  {
    hide LexAll, Consumed, EmitAll, FeedAll, FullBody, BodyOf, Conveys, GistOf;
    LexShape(cs);
    var P := Consumed(cs);
    var (l, ops) := LexAll(cs);
    ReadAll(cs[0], P);
    if !l.finished {
      var start := [Begin(PromptOf(cs[0].usage))];
      assert FullBody(P) == BodyOf(P) + FlushOps(l.think) by { UnfoldFullBody(P); }
      assert (start + BodyOf(P)) + (FlushOps(l.think) + [LastOp(P)])
             == start + ((BodyOf(P) + FlushOps(l.think)) + [LastOp(P)]);
    }
  }

  lemma UnfoldFullBody(cs: seq<Chunk>)
    ensures FullBody(cs) == BodyOf(cs) + FlushOps(SplitAll(Contents(cs)).0)
  {
  }

  /** When the upstream fails before the stream has ended, everything sent so far is well
      formed, but the message is left open: no `message_delta`, no `message_stop`. */
  lemma AnthropicStreamBroken(cs: seq<Chunk>)
    requires cs != [] && !Ended(Consumed(cs))
    ensures var client, r := ClientOf(cs, true), ReadingOf(Contents(cs));
            && client.Receiving? && client.inputTokens == FirstPrompt(cs)
            && TextOf(client.blocks) == r.before + r.after && ThinkingOf(client.blocks) == r.thinking
            && CarriesTools(ToolMap(cs, true), client.blocks, Deltas(cs))
            && (client.stray <==> !GistOf(BodyOf(cs)).orderly)
    ensures Consumed(cs) == cs
  {
    hide LexAll, Consumed, EmitAll, FeedAll, FullBody, CarriesTools, SplitAll, GistOf, BodyOf, Deltas;
    LexShape(cs);
    BodyProjects(cs);
    GistProjects(BodyOf(cs));
    BodyGist(cs);
    ReadBody(PromptOf(cs[0].usage), BodyOf(cs));
  }

  /** A client gets a complete message exactly when at least one chunk arrived and the upstream
      did not fail before the stream had ended. With no chunk at all the closing rule sends a
      finish without a start. */
  lemma CompleteExactly(cs: seq<Chunk>, fails: bool)
    ensures ClientOf(cs, fails).Complete? <==> cs != [] && (fails ==> Ended(Consumed(cs)))
    ensures ClientOf(cs, fails).Rejected? <==> cs == [] && !fails
  {
    if cs == [] {
      EmitNothing(UNSTARTED);
      if !fails {
        EmptyStream();
      }
    } else if fails && !Ended(Consumed(cs)) {
      AnthropicStreamBroken(cs);
    } else {
      AnthropicStreamMeaning(cs, fails);
    }
  }

  lemma EmptyStream()
    ensures ClientOf([], false).Rejected?
  {
    var finish := Finish("end_turn", 0);
    assert StreamOps([], false) == [finish];
    EmitOnly(UNSTARTED, finish);
    var events := StreamEvents([], false);
    assert events == [MessageDelta("end_turn", 0)] + [MessageStop];
    FeedAppend(Waiting, [MessageDelta("end_turn", 0)], [MessageStop]);
    FeedOne(Waiting, MessageDelta("end_turn", 0));
    FeedOne(Rejected, MessageStop);
  }

  // ---------------------------------------------------------------- end to end

  /** A stream without `<think>` reaches the client as text, to the last character. */
  lemma PlainStreamSurvives(cs: seq<Chunk>, fails: bool)
    requires cs != [] && (fails ==> Ended(Consumed(cs))) && Find(Concat(Contents(Consumed(cs))), OPEN).None?
    ensures var client := ClientOf(cs, fails);
            client.Complete? && TextOf(client.message.blocks) == Concat(Contents(Consumed(cs)))
            && ThinkingOf(client.message.blocks) == ""
  {
    hide FeedAll, EmitAll, LexAll, Find, CarriesTools;
    AnthropicStreamMeaning(cs, fails);
    NoTagConserves(Contents(Consumed(cs)));
  }

  /** The blocks hold T between `from` and the closing tag at `at` as thinking, and the first `kept`
      characters with all that follows the tag as text. */
  ghost predicate ClosedText(T: string, kept: nat, from: nat, at: nat, blocks: seq<Block>) {
    && kept <= |T| && from <= at && at + |CLOSE| <= |T|
    && ThinkingOf(blocks) == T[from..at]
    && TextOf(blocks) == T[..kept] + T[at + |CLOSE|..]
  }

  /** The blocks hold T from `from` on as thinking, and the first `kept` characters as text. */
  ghost predicate OpenText(T: string, kept: nat, from: nat, blocks: seq<Block>) {
    && kept <= |T| && from <= |T|
    && ThinkingOf(blocks) == T[from..]
    && TextOf(blocks) == T[..kept]
  }

  /** A stream with a `<think>`, the first one at i: the client holds as thinking what follows it up
      to the first closing tag that is not torn, or up to the end if there is none, and as text the
      rest, without the whitespace right before `<think>` that `Kept` leaves out. */
  lemma ThinkingStreamSurvives(cs: seq<Chunk>, fails: bool, i: nat)
    requires cs != [] && (fails ==> Ended(Consumed(cs)))
    requires Find(Concat(Contents(Consumed(cs))), OPEN) == Some(i)
    ensures ClientOf(cs, fails).Complete?
    ensures var texts, from := Contents(Consumed(cs)), i + |OPEN|;
            var blocks := ClientOf(cs, fails).message.blocks;
            && (forall at: nat | IsFirst(WholeCloses(texts), from, at) ::
                  ClosedText(Concat(texts), Kept(texts), from, at, blocks))
            && ((forall at: nat :: !IsFirst(WholeCloses(texts), from, at)) ==>
                  OpenText(Concat(texts), Kept(texts), from, blocks))
  {
    hide FeedAll, EmitAll, LexAll, Find, CarriesTools, SplitAll, ReadingOf, Concat, Contents, Consumed, WholeCloses,
      Kept, IsFirst;
    var texts := Contents(Consumed(cs));
    AnthropicStreamMeaning(cs, fails);
    BeforeIsKept(texts);
    AfterTag(texts, i);
    OutOfIdle(texts);
    assert ReadingOf(texts).before + "" == ReadingOf(texts).before;
  }

  lemma OutOfIdle(texts: seq<string>)
    requires Find(Concat(texts), OPEN).Some?
    ensures SplitAll(texts).0.mode != Idle
  {
    hide Find, SplitAll, ReadingOf, Concat, WholeCloses;
    SplitterIsFaithful(texts);
  }

  /** In particular, with the very first `</think>` after it, at j from there, not torn. */
  lemma UntornStreamSurvives(cs: seq<Chunk>, fails: bool, i: nat, j: nat)
    requires cs != [] && (fails ==> Ended(Consumed(cs)))
    requires var texts := Contents(Consumed(cs));
             && Find(Concat(texts), OPEN) == Some(i) && Find(Concat(texts)[i + |OPEN|..], CLOSE) == Some(j)
             && i + |OPEN| + j in WholeCloses(texts)
    ensures var texts, at := Contents(Consumed(cs)), i + |OPEN| + j;
            var T, client := Concat(texts), ClientOf(cs, fails);
            && at + |CLOSE| <= |T|
            && client.Complete?
            && TextOf(client.message.blocks) == T[..Kept(texts)] + T[at + |CLOSE|..]
            && ThinkingOf(client.message.blocks) == T[i + |OPEN|..at]
  {
    hide FeedAll, EmitAll, LexAll, Find, CarriesTools, SplitAll, ReadingOf, Concat, Contents, Consumed, WholeCloses,
      Kept;
    var texts := Contents(Consumed(cs));
    AnthropicStreamMeaning(cs, fails);
    BeforeIsKept(texts);
    CloseRecognisedIffWhole(texts, i, j);
    OutOfIdle(texts);
    assert ReadingOf(texts).before + "" == ReadingOf(texts).before;
  }

  /** A failure before the finish leaves the message open. */
  lemma OpenMessageLeft()
    ensures ClientOf([Single("x", [], "")], true).Receiving?
  {
    hide ClientOf;
    var c := Single("x", [], "");
    ReferenceSnoc([], c);
    assert [] + [c] == [c];
    AnthropicStreamBroken([c]);
  }

  // ---------------------------------------------------------------- orderly streams

  /** The text of chunk c makes the splitter emit something. */
  predicate Yields(earlier: seq<Chunk>, c: Chunk)
    requires c.choices != []
  {
    Split(SplitAll(Contents(earlier)).0, c.choices[0].content).1 != []
  }

  /** The text continues the thinking text of a `<think>` that is open. */
  predicate Continues(s: Splitter, text: string) {
    s.mode == Thinking && text != "" && Find(text, CLOSE) != Some(0)
  }

  /** The tool whose fragments are arriving: the last one started, unless text was emitted since. */
  function Arriving(cs: seq<Chunk>): Option<int> {
    if cs == [] then None
    else
      var init, c := cs[..|cs| - 1], cs[|cs| - 1];
      if c.choices == [] then Arriving(init)
      else ArrivingAfter(Deltas(init), if Yields(init, c) then None else Arriving(init), c.choices[0].toolCalls)
  }

  function ArrivingAfter(earlier: seq<ToolDelta>, arriving: Option<int>, ds: seq<ToolDelta>): Option<int> {
    if ds == [] then arriving
    else
      var init, d := ds[..|ds| - 1], ds[|ds| - 1];
      if d.index in Tools(earlier + init) then ArrivingAfter(earlier, arriving, init) else Some(d.index)
  }

  predicate StartsTool(earlier: seq<ToolDelta>, ds: seq<ToolDelta>) {
    |Tools(earlier + ds)| > |Tools(earlier)|
  }

  /** A tool has started since the last `<think>` was opened. */
  predicate Interrupted(cs: seq<Chunk>) {
    cs != []
    && (var init, c := cs[..|cs| - 1], cs[|cs| - 1];
        if c.choices == [] then Interrupted(init)
        else
          || (SplitAll(Contents(init)).0.mode == Thinking && Interrupted(init))
          || StartsTool(Deltas(init), c.choices[0].toolCalls))
  }

  /** No thinking text arrives after a tool has started within its `<think>`, and no fragment of a
      tool after text was emitted or another tool has started. */
  predicate Undisturbed(cs: seq<Chunk>) {
    cs == []
    || (var init, c := cs[..|cs| - 1], cs[|cs| - 1];
        && Undisturbed(init)
        && (c.choices != [] ==>
              && (Continues(SplitAll(Contents(init)).0, c.choices[0].content) ==> !Interrupted(init))
              && UndisturbedBy(Deltas(init), if Yields(init, c) then None else Arriving(init), c.choices[0].toolCalls)))
  }

  predicate UndisturbedBy(earlier: seq<ToolDelta>, arriving: Option<int>, ds: seq<ToolDelta>) {
    ds == []
    || (var init, d := ds[..|ds| - 1], ds[|ds| - 1];
        && UndisturbedBy(earlier, arriving, init)
        && (d.index in Tools(earlier + init) && d.args != "" ==>
              ArrivingAfter(earlier, arriving, init) == Some(d.index)))
  }

  /** What the chunks say about the open block, as long as nothing has gone astray. */
  ghost predicate Tracks(g: Gist, arriving: Option<int>, thinking: bool, interrupted: bool) {
    && g.orderly
    && (forall t :: g.focus == OnTool(t) <==> arriving == Some(t))
    && (thinking ==> (g.focus == OnThinking <==> !interrupted))
  }

  lemma OrderlyNow(g: Gist)
    ensures forall a, t, i :: Tracks(g, a, t, i) ==> g.orderly
  {
  }

  lemma GistSnoc(ops: seq<Op>, op: Op)
    ensures op.Say? ==> GistOf(ops + [op]) == AddPiece(GistOf(ops), op.piece)
    ensures op.Call? ==> GistOf(ops + [op]) == AddCall(GistOf(ops), op.delta)
  {
    assert (ops + [op])[..|ops|] == ops;
  }

  /** What has gone astray stays so. */
  lemma {:induction false} StaysDisorderly(ops: seq<Op>, more: seq<Op>)
    requires !GistOf(ops).orderly
    ensures !GistOf(ops + more).orderly
  {
    if more == [] {
      assert ops + more == ops;
    } else {
      assert (ops + more)[..|ops + more| - 1] == ops + more[..|more| - 1];
      StaysDisorderly(ops, more[..|more| - 1]);
    }
  }

  /** Every thought directly follows the opening tag, or comes first. */
  ghost predicate ThoughtsFollow(ps: seq<Piece>) {
    forall k | 0 < k < |ps| :: ThoughtFollows(ps, k)
  }

  predicate ThoughtFollows(ps: seq<Piece>, k: nat)
    requires 0 < k < |ps|
  {
    ps[k].Thought? ==> ps[k - 1].OpenThink?
  }

  lemma FollowPrefix(ps: seq<Piece>)
    requires ps != [] && ThoughtsFollow(ps)
    ensures ThoughtsFollow(ps[..|ps| - 1]) && (|ps| > 1 ==> ThoughtFollows(ps, |ps| - 1))
  {
    var init := ps[..|ps| - 1];
    forall k | 0 < k < |init| ensures ThoughtFollows(init, k) {
      assert ThoughtFollows(ps, k);
    }
  }

  /** Among the pieces of one fragment only a thought that comes first can go astray. */
  lemma {:induction false} TrackPieces(ops: seq<Op>, ps: seq<Piece>)
    requires GistOf(ops).orderly && ThoughtsFollow(ps)
    ensures var g := GistOf(ops + Says(ps));
            && g.orderly == (ps != [] && ps[0].Thought? ==> GistOf(ops).focus == OnThinking)
            && (ps == [] ==> g.focus == GistOf(ops).focus)
            && (ps != [] && g.orderly ==>
                 match ps[|ps| - 1]
                 case Plain(_) => g.focus == OnText
                 case OpenThink => g.focus == OnThinking
                 case Thought(_) => g.focus == OnThinking
                 case CloseThink => g.focus == Nothing)
  {
    hide Tools;
    if ps == [] {
      assert ops + Says(ps) == ops;
    } else {
      var init, p := ps[..|ps| - 1], ps[|ps| - 1];
      FollowPrefix(ps);
      TrackPieces(ops, init);
      assert ops + Says(ps) == (ops + Says(init)) + [Say(p)];
      GistSnoc(ops + Says(init), Say(p));
    }
  }

  /** The pieces of one fragment, as far as they decide which block is open. */
  lemma SplitShape(s: Splitter, text: string)
    requires text != ""
    ensures var (s', ps) := Split(s, text);
            && ThoughtsFollow(ps)
            && (ps != [] && ps[0].Thought? <==> Continues(s, text))
            && (s.mode == Thinking && s'.mode == Thinking ==> Continues(s, text))
            && (s'.mode == Thinking ==> ps != [] && (ps[|ps| - 1].Thought? || ps[|ps| - 1].OpenThink?))
  {
    hide FindFrom, Blank;
  }

  lemma TrackText(ops: seq<Op>, s: Splitter, text: string, arriving: Option<int>, interrupted: bool)
    requires Tracks(GistOf(ops), arriving, s.mode == Thinking, interrupted)
    ensures var (s', ps) := Split(s, text);
            var g := GistOf(ops + Says(ps));
            && g.orderly == (Continues(s, text) ==> !interrupted)
            && (g.orderly ==>
                  Tracks(g, if ps == [] then arriving else None, s'.mode == Thinking,
                         s.mode == Thinking && interrupted))
  {
    hide GistOf, Split, Find;
    if text == "" {
      SplitNothing(s);
      assert ops + Says([]) == ops;
    } else {
      SplitShape(s, text);
      var (s', ps) := Split(s, text);
      TrackPieces(ops, ps);
      if ps == [] { assert ops + Says(ps) == ops; }
    }
  }

  /** One tool delta. */
  lemma TrackCall(g: Gist, d: ToolDelta, arriving: Option<int>, thinking: bool, interrupted: bool)
    requires Tracks(g, arriving, thinking, interrupted)
    ensures var g', seen := AddCall(g, d), d.index in Tools(g.calls);
            && g'.orderly == (seen && d.args != "" ==> arriving == Some(d.index))
            && (g'.orderly ==>
                  Tracks(g', if seen then arriving else Some(d.index), thinking, interrupted || !seen))
  {
    hide Tools;
  }

  lemma {:induction false} TrackCalls(ops: seq<Op>, ds: seq<ToolDelta>, arriving: Option<int>, thinking: bool,
                                      interrupted: bool)
    requires Tracks(GistOf(ops), arriving, thinking, interrupted)
    ensures var g, earlier := GistOf(ops + Calls(ds)), CallsOf(ops);
            && g.orderly == UndisturbedBy(earlier, arriving, ds)
            && |Tools(earlier + ds)| >= |Tools(earlier)|
            && (g.orderly ==>
                  Tracks(g, ArrivingAfter(earlier, arriving, ds), thinking, interrupted || StartsTool(earlier, ds)))
  {
    hide Tools, CallsOf, GistOf, AddCall, Tracks;
    var earlier := CallsOf(ops);
    OrderlyNow(GistOf(ops));
    if ds == [] {
      assert ops + Calls(ds) == ops;
      assert earlier + ds == earlier;
      assert interrupted || StartsTool(earlier, ds) == interrupted;
    } else {
      var init, d := ds[..|ds| - 1], ds[|ds| - 1];
      TrackCalls(ops, init, arriving, thinking, interrupted);
      var before := ops + Calls(init);
      assert ops + Calls(ds) == before + [Call(d)];
      GistSnoc(before, Call(d));
      GistProjects(before);
      ProjectAppend(ops, Calls(init));
      CallsProject(init);
      assert earlier + ds == (earlier + init) + [d];
      ToolsSnoc(earlier + init, d);
      if GistOf(before).orderly {
        TrackCall(GistOf(before), d, ArrivingAfter(earlier, arriving, init), thinking,
                  interrupted || StartsTool(earlier, init));
        assert StartsTool(earlier, ds) == (StartsTool(earlier, init) || d.index !in Tools(earlier + init));
      } else {
        StaysDisorderly(before, [Call(d)]);
      }
    }
  }

  lemma {:induction false} TrackBody(cs: seq<Chunk>)
    ensures GistOf(BodyOf(cs)).orderly == Undisturbed(cs)
    ensures Undisturbed(cs) ==>
              Tracks(GistOf(BodyOf(cs)), Arriving(cs), SplitAll(Contents(cs)).0.mode == Thinking, Interrupted(cs))
  {
    hide Tools, CallsOf, PiecesOf, GistOf, Split, SplitAll, ArrivingAfter, UndisturbedBy, Tracks, Says, Calls,
      SaysAndCalls, StartsTool, Continues;
    if cs == [] {
      NoChunks();
      EmptyGist();
    } else {
      var init, c := cs[..|cs| - 1], cs[|cs| - 1];
      TrackBody(init);
      if c.choices == [] {
        assert BodyOf(init) + [] == BodyOf(init);
      } else {
        SplitAllSnoc(Contents(init), c.choices[0].content);
        var (s, choice) := (SplitAll(Contents(init)).0, c.choices[0]);
        var body, ps := BodyOf(init), Split(s, choice.content).1;
        assert body + (Says(ps) + Calls(choice.toolCalls)) == body + Says(ps) + Calls(choice.toolCalls);
        if GistOf(body).orderly {
          TrackText(body, s, choice.content, Arriving(init), Interrupted(init));
          TrackChoice(init, choice, s, ps);
        } else {
          StaysDisorderly(body, Says(ps) + Calls(choice.toolCalls));
        }
      }
    }
  }

  /** The tool calls of a chunk, after its text. */
  lemma TrackChoice(init: seq<Chunk>, choice: Choice, s: Splitter, ps: seq<Piece>)
    requires s == SplitAll(Contents(init)).0 && ps == Split(s, choice.content).1
    requires var g := GistOf(BodyOf(init) + Says(ps));
             g.orderly ==>
               Tracks(g, if ps == [] then Arriving(init) else None, Split(s, choice.content).0.mode == Thinking,
                      s.mode == Thinking && Interrupted(init))
    ensures var g := GistOf(BodyOf(init) + Says(ps) + Calls(choice.toolCalls));
            var arriving := if ps == [] then Arriving(init) else None;
            && g.orderly == (GistOf(BodyOf(init) + Says(ps)).orderly
                             && UndisturbedBy(Deltas(init), arriving, choice.toolCalls))
            && (g.orderly ==>
                  Tracks(g, ArrivingAfter(Deltas(init), arriving, choice.toolCalls),
                         Split(s, choice.content).0.mode == Thinking,
                         (s.mode == Thinking && Interrupted(init)) || StartsTool(Deltas(init), choice.toolCalls)))
  {
    hide Tools, CallsOf, PiecesOf, GistOf, Split, SplitAll, ArrivingAfter, UndisturbedBy, Tracks, Says, Calls,
      SaysAndCalls, StartsTool, Arriving, Interrupted;
    var ops := BodyOf(init) + Says(ps);
    BodyProjects(init);
    ProjectAppend(BodyOf(init), Says(ps));
    SaysProject(ps);
    assert Deltas(init) + [] == Deltas(init);
    if GistOf(ops).orderly {
      TrackCalls(ops, choice.toolCalls, if ps == [] then Arriving(init) else None,
                 Split(s, choice.content).0.mode == Thinking, s.mode == Thinking && Interrupted(init));
      OrderlyNow(GistOf(ops + Calls(choice.toolCalls)));
    } else {
      StaysDisorderly(ops, Calls(choice.toolCalls));
    }
  }

  lemma EmptyGist()
    ensures GistOf([]).orderly && Tracks(GistOf([]), None, false, false)
  {
  }

  /** Over every stream, whether the upstream ends or fails, some delta misses the open block of
      its kind exactly when the chunks consumed are disturbed. */
  lemma StrayExactly(cs: seq<Chunk>, fails: bool)
    requires cs != []
    ensures var client := ClientOf(cs, fails);
            && (client.Complete? || client.Receiving?)
            && (client.Strayed() <==> !Undisturbed(Consumed(cs)))
  {
    hide LexAll, Consumed, EmitAll, FeedAll, BodyOf, Conveys, GistOf, SplitAll, Undisturbed, Arriving;
    var P := Consumed(cs);
    TrackBody(P);
    if fails && !Ended(P) {
      AnthropicStreamBroken(cs);
    } else {
      AnthropicStreamMeaning(cs, fails);
      var s := SplitAll(Contents(P)).0;
      if FlushOps(s) == [] {
        assert BodyOf(P) + [] == BodyOf(P);
      } else {
        GistSnoc(BodyOf(P), Say(Plain(s.buffer)));
      }
    }
  }

  // ---------------------------------------------------------------- inputs with stray deltas

  const TOOL_START := ToolDelta(0, "t", "f", "")
  const MORE := ToolDelta(0, "", "", "{}")

  lemma TwoChunks(c: Chunk, d: Chunk)
    requires !Ends(c) && !Ends(d) && c.choices != [] && d.choices != []
    ensures var cs := [c, d];
            && cs[..1] == [c] && Consumed(cs) == cs
            && Contents([c]) == [c.choices[0].content] && Deltas([c]) == c.choices[0].toolCalls
            && Deltas([]) == [] && Contents([]) == []
  {
    ReferenceSnoc([], c);
    ReferenceSnoc([c], d);
    assert [] + [c] == [c] && [c] + [d] == [c, d];
  }

  lemma ThinkingOpened()
    ensures SplitAll(["<think>a"]).0.mode == Thinking
  {
    hide Find;
    assert ["<think>a"][..0] == [] && FRESH.buffer + "<think>a" == "<think>a";
    FoundAt("<think>a", OPEN, 0);
    assert "<think>a"[|OPEN|..] == "a";
    NotFound("a", CLOSE);
  }

  /** A tool starts while `<think>` is open, and more thinking text follows: it is sent into the
      block of the tool. */
  lemma ThoughtInToolBlock(fails: bool)
    ensures ClientOf([Single("<think>a", [TOOL_START], ""), Single("b", [], "")], fails).Strayed()
  {
    hide Find, ClientOf, Consumed, Tools, Split, SplitAll, Contents;
    var c, d := Single("<think>a", [TOOL_START], ""), Single("b", [], "");
    TwoChunks(c, d);
    ThinkingOpened();
    NotFound("b", CLOSE);
    ToolsSnoc([], TOOL_START);
    assert [] + [TOOL_START] == [TOOL_START];
    assert Tools([]) == [] by { NoTools(); }
    assert Interrupted([c]);
    assert !Undisturbed([c, d]);
    StrayExactly([c, d], fails);
  }

  /** Text is emitted between the start of a tool and a fragment of its arguments: the fragment is
      sent to a block that has been closed. */
  lemma FragmentToClosedBlock(fails: bool)
    ensures ClientOf([Single("", [TOOL_START], ""), Single("0123456", [MORE], "")], fails).Strayed()
  {
    hide Find, ClientOf, Consumed, Tools, Split, SplitAll, UndisturbedBy;
    var c, d := Single("", [TOOL_START], ""), Single("0123456", [MORE], "");
    TwoChunks(c, d);
    SevenCharacters();
    LateFragment();
    assert Yields([c], d);
    assert !Undisturbed([c, d]);
    StrayExactly([c, d], fails);
  }

  lemma SevenCharacters()
    ensures Split(SplitAll([""]).0, "0123456").1 != []
  {
    assert [""][..0] == [] && FRESH.buffer + "0123456" == "0123456";
    NotFound("0123456", OPEN);
  }

  lemma LateFragment()
    ensures !UndisturbedBy([TOOL_START], None, [MORE])
  {
    hide Tools;
    NoTools();
    ToolsSnoc([], TOOL_START);
    assert [] + [TOOL_START] == [TOOL_START] && [TOOL_START] + [] == [TOOL_START];
    assert [MORE][..0] == [];
  }

  lemma NoTools()
    ensures Tools([]) == []
  {
  }
}
