/**
 `AnthropicStreamConverter` (services/anthropic_convert.py) and the loop that drives it
 (`_stream_anthropic_sse`, controllers/messages.py).
 */
module AnthropicConvert {
  import opened Wrappers
  import opened Text
  import opened OpenAiChunks
  import opened ThinkSplitter
  import opened AnthropicEvents
  import opened AnthropicEmitter

  // ---------------------------------------------------------------- specification of one chunk

  /** The part of the converter's state that decides what to emit next. */
  datatype Lexer = Lexer(started: bool, finished: bool, inputTokens: int, outputTokens: int, think: Splitter)

  const NEW_LEXER := Lexer(false, false, 0, 0, FRESH)

  function StopReason(finishReason: string): string {
    match finishReason
    case "stop" => "end_turn"
    case "length" => "max_tokens"
    case "max_tokens" => "max_tokens"
    case "tool_calls" => "tool_use"
    case "content_filter" => "end_turn"
    case _ => "end_turn"
  }

  function Says(ps: seq<Piece>): seq<Op> {
    seq(|ps|, i requires 0 <= i < |ps| => Say(ps[i]))
  }

  function Calls(ds: seq<ToolDelta>): seq<Op> {
    seq(|ds|, i requires 0 <= i < |ds| => Call(ds[i]))
  }

  function FlushOps(s: Splitter): seq<Op> {
    if s.buffer != "" && s.mode == Idle then [Say(Plain(s.buffer))] else []
  }

  function Flushed(s: Splitter): Splitter {
    if s.mode == Idle then s.(buffer := "") else s
  }

  function FinishLexer(l: Lexer, stopReason: string): (Lexer, seq<Op>) {
    (l.(finished := true, think := Flushed(l.think)),
     FlushOps(l.think) + [Finish(stopReason, l.outputTokens)])
  }

  function SeeUsage(l: Lexer, u: Option<Usage>): Lexer {
    if u.Some? then l.(inputTokens := u.value.promptTokens, outputTokens := u.value.completionTokens) else l
  }

  function PromptOf(u: Option<Usage>): int {
    if u.Some? then u.value.promptTokens else 0
  }

  function LexChoice(l: Lexer, choice: Choice): (Lexer, seq<Op>) {
    var (s, ps) := Split(l.think, choice.content);
    var l1 := l.(think := s);
    var body := Says(ps) + Calls(choice.toolCalls);
    if choice.finishReason == "" then (l1, body)
    else
      var (l2, ops) := FinishLexer(l1, StopReason(choice.finishReason));
      (l2, body + ops)
  }

  function LexChunk(l: Lexer, c: Chunk): (Lexer, seq<Op>) {
    if l.finished then (l, [])
    else
      var l1 := SeeUsage(l, c.usage).(started := true);
      var start := if l.started then [] else [Begin(PromptOf(c.usage))];
      if c.choices == [] then
        if c.usage.None? then (l1, start)
        else
          var (l2, ops) := FinishLexer(l1, "end_turn");
          (l2, start + ops)
      else
        var (l2, ops) := LexChoice(l1, c.choices[0]);
        (l2, start + ops)
  }

  function LexAll(cs: seq<Chunk>): (Lexer, seq<Op>) {
    if cs == [] then (NEW_LEXER, [])
    else
      var (l, ops) := LexAll(cs[..|cs| - 1]);
      var (l', more) := LexChunk(l, cs[|cs| - 1]);
      (l', ops + more)
  }

  /** The operations of a whole stream, with the closing rule of the controller. */
  function StreamOps(cs: seq<Chunk>, fails: bool): seq<Op> {
    var (l, ops) := LexAll(cs);
    if fails || l.finished then ops else ops + FinishLexer(l, "end_turn").1
  }

  /** The event stream sent to the client when the upstream delivers `cs` and then ends, or
      fails. */
  function StreamEvents(cs: seq<Chunk>, fails: bool): seq<Event> {
    EmitAll(UNSTARTED, StreamOps(cs, fails)).1
  }

  // ---------------------------------------------------------------- the converter

  lemma EmitSnoc(e: Emitter, ops: seq<Op>, op: Op)
    ensures EmitAll(e, ops + [op]) == Then(EmitAll(e, ops), Emit(EmitAll(e, ops).0, op))
  {
    assert (ops + [op])[..|ops|] == ops;
  }

  lemma SaySnoc(e: Emitter, ps: seq<Piece>, p: Piece)
    ensures EmitAll(e, Says(ps + [p])) == Then(EmitAll(e, Says(ps)), EmitPiece(EmitAll(e, Says(ps)).0, p))
  {
    assert Says(ps + [p]) == Says(ps) + [Say(p)];
    EmitSnoc(e, Says(ps), Say(p));
  }

  lemma SayAppend(e: Emitter, ps: seq<Piece>, qs: seq<Piece>)
    ensures EmitAll(e, Says(ps + qs)) == Then(EmitAll(e, Says(ps)), EmitAll(EmitAll(e, Says(ps)).0, Says(qs)))
  {
    assert Says(ps + qs) == Says(ps) + Says(qs);
    EmitAppend(e, Says(ps), Says(qs));
  }

  lemma EmitNothing(e: Emitter)
    ensures EmitAll(e, []) == (e, [])
  {
  }

  lemma EmitOnly(e: Emitter, op: Op)
    ensures EmitAll(e, [op]) == Emit(e, op)
  {
    EmitNothing(e);
    EmitSnoc(e, [], op);
    assert [] + [op] == [op];
    assert [] + Emit(e, op).1 == Emit(e, op).1;
  }

  lemma EmitBegin(e: Emitter, input: int)
    ensures EmitAll(e, [Begin(input)]) == (e, [MessageStart(input), Ping])
  {
    EmitOnly(e, Begin(input));
  }

  /** One turn of the loop in `_process_text`: new state, pieces, and the text still to do. */
  function Turn(s: Splitter, text: string): (Splitter, seq<Piece>, string) {
    match s.mode
    case Idle => IdleTurn(s, text)
    case Thinking => ThinkingTurn(s, text)
    case Done => (s, [Plain(text)], "")
  }

  function IdleTurn(s: Splitter, text: string): (Splitter, seq<Piece>, string) {
    var buf := s.buffer + text;
    match Find(buf, OPEN)
    case Some(i) => (Splitter(Thinking, ""), Opening(buf[..i]), buf[i + |OPEN|..])
    case None =>
      if |buf| >= 7 then (s.(buffer := buf[|buf| - 6..]), [Plain(buf[..|buf| - 6])], "")
      else (s.(buffer := buf), [], "")
  }

  function ThinkingTurn(s: Splitter, text: string): (Splitter, seq<Piece>, string) {
    match Find(text, CLOSE)
    case Some(j) => (s.(mode := Done), Closing(text[..j]), text[j + |CLOSE|..])
    case None => (s, [Thought(text)], "")
  }

  /** A fragment is split one turn at a time. The rank of the mode falls or the text is used
      up, although an idle turn rebuilds the text from the buffer: the loop terminates. */
  lemma SplitTurn(s: Splitter, text: string)
    requires text != ""
    ensures var (s', ps, rest) := Turn(s, text);
            && Split(s, text).0 == Split(s', rest).0
            && Split(s, text).1 == ps + Split(s', rest).1
            && (Rank(s'.mode) < Rank(s.mode) || (rest == "" && s'.mode == s.mode))
  {
    hide Find, Opening, Closing;
    var (s', ps, rest) := Turn(s, text);
    assert ps + [] == ps;
  }

  function Rank(m: Mode): nat {
    match m case Idle => 2 case Thinking => 1 case Done => 0
  }

  lemma SplitNothing(s: Splitter)
    ensures Split(s, "") == (s, [])
  {
  }

  lemma SayOne(e: Emitter, p: Piece)
    ensures EmitAll(e, Says([p])) == EmitPiece(e, p)
  {
    SayNothing(e);
    SaySnoc(e, [], p);
    assert [] + [p] == [p];
    assert [] + EmitPiece(e, p).1 == EmitPiece(e, p).1;
  }

  lemma SayNothing(e: Emitter)
    ensures EmitAll(e, Says([])) == (e, [])
  {
  }

  class AnthropicStreamConverter {
    var contentIndex: nat
    var blockOpen: bool
    var blockType: Option<BlockType>
    var toolIndexMap: map<int, nat>
    var started: bool
    var finished: bool
    var inputTokens: int
    var outputTokens: int
    var thinkState: Mode
    var thinkBuffer: string
    var generated: nat

    function EmitterState(): Emitter
      reads this
    {
      Emitter(contentIndex, blockOpen, blockType, toolIndexMap, generated)
    }

    function SplitterState(): Splitter
      reads this
    {
      Splitter(thinkState, thinkBuffer)
    }

    function LexerState(): Lexer
      reads this
    {
      Lexer(started, finished, inputTokens, outputTokens, SplitterState())
    }

    constructor ()
      ensures LexerState() == NEW_LEXER && EmitterState() == UNSTARTED
    {
      contentIndex, blockOpen, blockType, toolIndexMap, generated := 0, false, None, map[], 0;
      started, finished, inputTokens, outputTokens := false, false, 0, 0;
      thinkState, thinkBuffer := Idle, "";
    }

    method EmitMessageStart(usageHint: Option<Usage>) returns (events: seq<Event>)
      modifies this`started, this`inputTokens
      ensures LexerState() == old(LexerState()).(started := true,
                                       inputTokens := if usageHint.Some? then PromptOf(usageHint) else old(inputTokens))
      ensures events == [MessageStart(PromptOf(usageHint)), Ping]
    {
      started := true;
      var input := 0;
      if usageHint.Some? {
        input := usageHint.value.promptTokens;
        inputTokens := input;
      }
      events := [MessageStart(input), Ping];
    }

    method EmitBlockStart(t: BlockType, kind: BlockKind) returns (events: seq<Event>)
      modifies this`blockOpen, this`blockType
      ensures (EmitterState(), events) == StartBlock(old(EmitterState()), t, kind)
    {
      events := [BlockStart(contentIndex, kind)];
      blockOpen := true;
      blockType := Some(t);
    }

    method EmitBlockStop() returns (events: seq<Event>)
      modifies this`blockOpen, this`blockType, this`contentIndex
      ensures (EmitterState(), events) == StopBlock(old(EmitterState()))
    {
      events := [BlockStop(contentIndex)];
      blockOpen := false;
      blockType := None;
      contentIndex := contentIndex + 1;
    }

    method EmitPlainText(text: string) returns (events: seq<Event>)
      modifies this`blockOpen, this`blockType, this`contentIndex
      ensures (EmitterState(), events) == EmitPiece(old(EmitterState()), Plain(text))
    {
      events := [];
      if !blockOpen || blockType != Some(TextType) {
        if blockOpen {
          events := EmitBlockStop();
        }
        var start := EmitBlockStart(TextType, TextBlock);
        events := events + start;
      }
      var delta := [TextDelta(contentIndex, text)];
      assert [] + delta == delta;
      events := events + delta;
    }

    method StartThinkingBlock() returns (events: seq<Event>)
      modifies this`blockOpen, this`blockType, this`contentIndex
      ensures (EmitterState(), events) == EmitPiece(old(EmitterState()), OpenThink)
    {
      events := [];
      if blockOpen {
        events := EmitBlockStop();
      }
      var start := EmitBlockStart(ThinkingType, ThinkingBlock);
      events := events + start;
    }

    /** One turn of the loop in `_process_text`, while idle. */
    method ProcessIdle(text: string) returns (events: seq<Event>, remaining: string)
      requires thinkState == Idle
      modifies this`blockOpen, this`blockType, this`contentIndex, this`thinkState, this`thinkBuffer
      ensures var turn := IdleTurn(old(SplitterState()), text); (SplitterState(), remaining) == (turn.0, turn.2)
      ensures (EmitterState(), events) == EmitAll(old(EmitterState()), Says(IdleTurn(old(SplitterState()), text).1))
    {
      hide Find, EmitPlain, EmitOpenThink, EmitAll, Says, Blank;
      SayNothing(EmitterState());
      ghost var e0 := EmitterState();
      events := [];
      thinkBuffer := thinkBuffer + text;
      remaining := "";
      match Find(thinkBuffer, OPEN) {
        case Some(i) =>
          var before, after := thinkBuffer[..i], thinkBuffer[i + |OPEN|..];
          ghost var said: seq<Piece> := [];
          if !Blank(before) {
            events := EmitPlainText(before);
            SayOne(e0, Plain(before));
            said := [Plain(before)];
          }
          thinkState := Thinking;
          var start := StartThinkingBlock();
          events := events + start;
          SaySnoc(e0, said, OpenThink);
          thinkBuffer := "";
          remaining := after;
        case None =>
          if |thinkBuffer| >= 7 {
            var safe := thinkBuffer[..|thinkBuffer| - 6];
            thinkBuffer := thinkBuffer[|thinkBuffer| - 6..];
            events := EmitPlainText(safe);
            SayOne(e0, Plain(safe));
          }
      }
    }

    /** One turn of the loop in `_process_text`, while thinking. */
    method ProcessThinking(text: string) returns (events: seq<Event>, remaining: string)
      requires thinkState == Thinking
      modifies this`blockOpen, this`blockType, this`contentIndex, this`thinkState
      ensures var turn := ThinkingTurn(old(SplitterState()), text); (SplitterState(), remaining) == (turn.0, turn.2)
      ensures (EmitterState(), events) == EmitAll(old(EmitterState()), Says(ThinkingTurn(old(SplitterState()), text).1))
    {
      hide Find, EmitPlain, EmitOpenThink, EmitAll, Says;
      SayNothing(EmitterState());
      ghost var e0 := EmitterState();
      events := [];
      match Find(text, CLOSE) {
        case Some(j) =>
          var before := text[..j];
          remaining := text[j + |CLOSE|..];
          ghost var said: seq<Piece> := [];
          if before != "" {
            events := [ThinkingDelta(contentIndex, before)];
            SayOne(e0, Thought(before));
            said := [Thought(before)];
          }
          var stop := EmitBlockStop();
          events := events + stop;
          SaySnoc(e0, said, CloseThink);
          thinkState := Done;
        case None =>
          events := [ThinkingDelta(contentIndex, text)];
          SayOne(e0, Thought(text));
          remaining := "";
      }
    }

    /** Routes text through the think-tag state machine. */
    method ProcessText(text: string) returns (events: seq<Event>)
      modifies this`blockOpen, this`blockType, this`contentIndex, this`thinkState, this`thinkBuffer
      ensures SplitterState() == Split(old(SplitterState()), text).0
      ensures (EmitterState(), events) == EmitAll(old(EmitterState()), Says(Split(old(SplitterState()), text).1))
    {
      hide EmitAll, Says, IdleTurn, ThinkingTurn, Split, EmitPiece;
      ghost var e0 := EmitterState();
      SayNothing(e0);
      events := [];
      var remaining := text;
      ghost var said: seq<Piece> := [];
      ghost var whole := Split(SplitterState(), text);
      while remaining != ""
        invariant Split(SplitterState(), remaining).0 == whole.0
        invariant said + Split(SplitterState(), remaining).1 == whole.1
        invariant (EmitterState(), events) == EmitAll(e0, Says(said))
        decreases Rank(thinkState), |remaining|
      {
        ghost var s, rest := SplitterState(), remaining;
        SplitTurn(s, rest);
        var more: seq<Event>;
        match thinkState {
          case Idle => more, remaining := ProcessIdle(remaining);
          case Thinking => more, remaining := ProcessThinking(remaining);
          case Done =>
            SayOne(EmitterState(), Plain(remaining));
            more := EmitPlainText(remaining);
            remaining := "";
        }
        SayAppend(e0, said, Turn(s, rest).1);
        events := events + more;
        said := said + Turn(s, rest).1;
      }
      SplitNothing(SplitterState());
      assert said + [] == said;
    }

    method FlushThinkBuffer() returns (events: seq<Event>)
      modifies this`blockOpen, this`blockType, this`contentIndex, this`thinkBuffer
      ensures SplitterState() == Flushed(old(SplitterState()))
      ensures (EmitterState(), events) == EmitAll(old(EmitterState()), FlushOps(old(SplitterState())))
    {
      hide EmitPlain, EmitOpenThink;
      events := [];
      if thinkBuffer != "" && thinkState == Idle {
        EmitOnly(EmitterState(), Say(Plain(thinkBuffer)));
        events := EmitPlainText(thinkBuffer);
        thinkBuffer := "";
      }
    }

    method EmitFinish(stopReason: string) returns (events: seq<Event>)
      modifies this
      ensures LexerState() == FinishLexer(old(LexerState()), stopReason).0
      ensures (EmitterState(), events) == EmitAll(old(EmitterState()), FinishLexer(old(LexerState()), stopReason).1)
    {
      hide EmitAll;
      ghost var e0, flush, last := EmitterState(), FlushOps(SplitterState()), Op.Finish(stopReason, outputTokens);
      EmitAppend(e0, flush, [last]);
      events := FlushThinkBuffer();
      EmitOnly(EmitterState(), last);
      var closing: seq<Event> := [];
      if blockOpen {
        closing := EmitBlockStop();
      }
      events := events + (closing + [MessageDelta(stopReason, outputTokens), MessageStop]);
      finished := true;
    }

    method ConvertToolCall(tc: ToolDelta) returns (events: seq<Event>)
      modifies this`blockOpen, this`blockType, this`contentIndex, this`toolIndexMap, this`generated
      ensures (EmitterState(), events) == Emit(old(EmitterState()), Call(tc))
    {
      events := [];
      if tc.index !in toolIndexMap {
        if blockOpen {
          events := EmitBlockStop();
        }
        var id := Given(tc.id);
        if tc.id == "" {
          id := Generated(generated);
          generated := generated + 1;
        }
        var start := EmitBlockStart(ToolType, ToolUse(id, tc.name));
        events := events + start;
        toolIndexMap := toolIndexMap[tc.index := contentIndex];
      }
      if tc.args != "" {
        events := events + [InputJsonDelta(toolIndexMap[tc.index], tc.args)];
      }
    }

    method ConvertToolCalls(tcs: seq<ToolDelta>) returns (events: seq<Event>)
      modifies this`blockOpen, this`blockType, this`contentIndex, this`toolIndexMap, this`generated
      ensures (EmitterState(), events) == EmitAll(old(EmitterState()), Calls(tcs))
    {
      hide Emit;
      events := [];
      for k := 0 to |tcs|
        invariant (EmitterState(), events) == EmitAll(old(EmitterState()), Calls(tcs[..k]))
      {
        assert Calls(tcs[..k + 1]) == Calls(tcs[..k]) + [Call(tcs[k])];
        EmitSnoc(old(EmitterState()), Calls(tcs[..k]), Call(tcs[k]));
        var more := ConvertToolCall(tcs[k]);
        events := events + more;
      }
      assert tcs[..|tcs|] == tcs;
    }

    /** The first choice of a chunk: text, tool calls, finish. */
    method ConvertChoice(choice: Choice) returns (events: seq<Event>)
      modifies this
      ensures LexerState() == LexChoice(old(LexerState()), choice).0
      ensures (EmitterState(), events) == EmitAll(old(EmitterState()), LexChoice(old(LexerState()), choice).1)
    {
      hide EmitAll, Split, Says, Calls, FinishLexer, Emit, StopReason;
      ghost var e0, l0 := EmitterState(), LexerState();
      SplitNothing(SplitterState());
      events := [];
      if choice.content != "" {
        events := ProcessText(choice.content);
      } else {
        SayNothing(EmitterState());
      }
      ghost var ops := Says(Split(l0.think, choice.content).1);
      var tools := ConvertToolCalls(choice.toolCalls);
      EmitAppend(e0, ops, Calls(choice.toolCalls));
      events := events + tools;
      ops := ops + Calls(choice.toolCalls);
      if choice.finishReason != "" {
        ghost var l1 := LexerState();
        var finish := EmitFinish(StopReason(choice.finishReason));
        EmitAppend(e0, ops, FinishLexer(l1, StopReason(choice.finishReason)).1);
        events := events + finish;
      }
    }

    /** Converts one OpenAI streaming chunk to Anthropic events. */
    method ConvertChunk(chunk: Chunk) returns (events: seq<Event>)
      modifies this
      ensures LexerState() == LexChunk(old(LexerState()), chunk).0
      ensures (EmitterState(), events) == EmitAll(old(EmitterState()), LexChunk(old(LexerState()), chunk).1)
    {
      hide EmitAll, FinishLexer, LexChoice;
      ghost var e0, l0 := EmitterState(), LexerState();
      EmitNothing(e0);
      if finished {
        return [];
      }
      events := [];
      if chunk.usage.Some? {
        inputTokens := chunk.usage.value.promptTokens;
        outputTokens := chunk.usage.value.completionTokens;
      }
      ghost var start: seq<Op> := [];
      if !started {
        events := EmitMessageStart(chunk.usage);
        start := [Begin(PromptOf(chunk.usage))];
        EmitBegin(e0, PromptOf(chunk.usage));
      }
      ghost var l1 := LexerState();
      assert l1 == SeeUsage(l0, chunk.usage).(started := true);
      if chunk.choices == [] {
        if chunk.usage.Some? {
          EmitAppend(e0, start, FinishLexer(l1, "end_turn").1);
          var finish := EmitFinish("end_turn");
          events := events + finish;
        }
        return;
      }
      EmitAppend(e0, start, LexChoice(l1, chunk.choices[0]).1);
      var more := ConvertChoice(chunk.choices[0]);
      events := events + more;
    }
  }

  /** `_stream_anthropic_sse`: everything sent to the client when the upstream delivers the
      given chunks and then ends, or raises. */
  method StreamAnthropicSse(chunks: seq<Chunk>, upstreamFails: bool) returns (events: seq<Event>)
    ensures events == StreamEvents(chunks, upstreamFails)
  {
    hide EmitAll, LexChunk, FinishLexer;
    var converter := new AnthropicStreamConverter();
    events := [];
    EmitNothing(UNSTARTED);
    for k := 0 to |chunks|
      invariant converter.LexerState() == LexAll(chunks[..k]).0
      invariant (converter.EmitterState(), events) == EmitAll(UNSTARTED, LexAll(chunks[..k]).1)
    {
      assert chunks[..k + 1][..k] == chunks[..k];
      EmitAppend(UNSTARTED, LexAll(chunks[..k]).1, LexChunk(LexAll(chunks[..k]).0, chunks[k]).1);
      var more := converter.ConvertChunk(chunks[k]);
      events := events + more;
    }
    assert chunks[..|chunks|] == chunks;
    if !upstreamFails && !converter.finished {
      EmitAppend(UNSTARTED, LexAll(chunks).1, FinishLexer(LexAll(chunks).0, "end_turn").1);
      var finish := converter.EmitFinish("end_turn");
      events := events + finish;
    }
  }
}
