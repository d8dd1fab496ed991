/**
 The block bookkeeping of `AnthropicStreamConverter` (services/anthropic_convert.py): content
 index, open block and tool index map. Its input is a list of operations, what is left of the
 chunks once the `<think>` splitter has worked on the text.
 */
module AnthropicEmitter {
  import opened Wrappers
  import opened OpenAiChunks
  import opened ThinkSplitter
  import opened AnthropicEvents

  datatype BlockType = TextType | ThinkingType | ToolType

  datatype Emitter = Emitter(
    index: nat,
    open: bool,
    blockType: Option<BlockType>,
    tools: map<int, nat>,
    generated: nat)

  const UNSTARTED := Emitter(0, false, None, map[], 0)

  datatype Op =
    | Begin(inputTokens: int)
    | Say(piece: Piece)
    | Call(delta: ToolDelta)
    | Finish(stopReason: string, outputTokens: int)

  type Emission = (Emitter, seq<Event>)

  function StartBlock(e: Emitter, t: BlockType, kind: BlockKind): Emission {
    (e.(open := true, blockType := Some(t)), [BlockStart(e.index, kind)])
  }

  function StopBlock(e: Emitter): Emission {
    (e.(open := false, blockType := None, index := e.index + 1), [BlockStop(e.index)])
  }

  function StopIfOpen(e: Emitter): Emission {
    if e.open then StopBlock(e) else (e, [])
  }

  function Then(x: Emission, y: Emission): Emission {
    (y.0, x.1 + y.1)
  }

  function EmitPlain(e: Emitter, text: string): Emission {
    if e.open && e.blockType == Some(TextType) then (e, [TextDelta(e.index, text)])
    else
      var x := StopIfOpen(e);
      var y := StartBlock(x.0, TextType, TextBlock);
      Then(Then(x, y), (y.0, [TextDelta(y.0.index, text)]))
  }

  function EmitOpenThink(e: Emitter): Emission {
    var x := StopIfOpen(e);
    Then(x, StartBlock(x.0, ThinkingType, ThinkingBlock))
  }

  function EmitPiece(e: Emitter, p: Piece): Emission {
    match p
    case Plain(t) => EmitPlain(e, t)
    case OpenThink => EmitOpenThink(e)
    case Thought(t) => (e, [ThinkingDelta(e.index, t)])
    case CloseThink => StopBlock(e)
  }

  function StartTool(e: Emitter, d: ToolDelta): Emission {
    var x := StopIfOpen(e);
    var id := if d.id != "" then Given(d.id) else Generated(e.generated);
    var y := StartBlock(x.0, ToolType, ToolUse(id, d.name));
    Then(x, (y.0.(tools := e.tools[d.index := y.0.index],
                  generated := e.generated + if d.id == "" then 1 else 0), y.1))
  }

  function EmitCall(e: Emitter, d: ToolDelta): Emission {
    var x := if d.index in e.tools then (e, []) else StartTool(e, d);
    if d.args == "" then x
    else Then(x, (x.0, [InputJsonDelta(x.0.tools[d.index], d.args)]))
  }

  function EmitFinish(e: Emitter, stopReason: string, outputTokens: int): Emission {
    Then(StopIfOpen(e), (StopIfOpen(e).0, [MessageDelta(stopReason, outputTokens), MessageStop]))
  }

  function Emit(e: Emitter, op: Op): Emission {
    match op
    case Begin(input) => (e, [MessageStart(input), Ping])
    case Say(p) => EmitPiece(e, p)
    case Call(d) => EmitCall(e, d)
    case Finish(stop, output) => EmitFinish(e, stop, output)
  }

  function EmitAll(e: Emitter, ops: seq<Op>): Emission {
    if ops == [] then (e, [])
    else
      var x := EmitAll(e, ops[..|ops| - 1]);
      Then(x, Emit(x.0, ops[|ops| - 1]))
  }

  lemma {:induction false} EmitAppend(e: Emitter, xs: seq<Op>, ys: seq<Op>)
    ensures EmitAll(e, xs + ys) == Then(EmitAll(e, xs), EmitAll(EmitAll(e, xs).0, ys))
  {
    hide Emit;
    if ys == [] {
      assert xs + ys == xs;
      assert EmitAll(e, xs).1 + [] == EmitAll(e, xs).1;
    } else {
      assert (xs + ys)[..|xs + ys| - 1] == xs + ys[..|ys| - 1];
      EmitAppend(e, xs, ys[..|ys| - 1]);
      var x, y := EmitAll(e, xs), EmitAll(EmitAll(e, xs).0, ys[..|ys| - 1]);
      var z := Emit(y.0, ys[|ys| - 1]);
      assert (x.1 + y.1) + z.1 == x.1 + (y.1 + z.1);
    }
  }

  // ---------------------------------------------------------------- projections of the operations

  function PiecesOf(ops: seq<Op>): seq<Piece> {
    if ops == [] then []
    else
      var init, op := PiecesOf(ops[..|ops| - 1]), ops[|ops| - 1];
      if op.Say? then init + [op.piece] else init
  }

  function CallsOf(ops: seq<Op>): seq<ToolDelta> {
    if ops == [] then []
    else
      var init, op := CallsOf(ops[..|ops| - 1]), ops[|ops| - 1];
      if op.Call? then init + [op.delta] else init
  }

  lemma {:induction false} ProjectAppend(xs: seq<Op>, ys: seq<Op>)
    ensures PiecesOf(xs + ys) == PiecesOf(xs) + PiecesOf(ys)
    ensures CallsOf(xs + ys) == CallsOf(xs) + CallsOf(ys)
  {
    if ys == [] {
      assert xs + ys == xs;
    } else {
      assert (xs + ys)[..|xs + ys| - 1] == xs + ys[..|ys| - 1];
      ProjectAppend(xs, ys[..|ys| - 1]);
    }
  }

  /** Thoughts and closing tags occur only between an opening tag and its closing tag. */
  predicate WellNested(ps: seq<Piece>) {
    ps == []
    || (var init, p := ps[..|ps| - 1], ps[|ps| - 1];
        && WellNested(init)
        && (p.Thought? || p.CloseThink? ==> InThink(ReadPieces(NOTHING_READ, init))))
  }

  predicate InThink(r: Reading) { r.began && !r.ended }

  predicate IsBody(ops: seq<Op>) {
    && (forall op <- ops :: op.Say? || op.Call?)
    && WellNested(PiecesOf(ops))
  }

  // ---------------------------------------------------------------- emitter and client agree

  ghost predicate SameKind(t: BlockType, kind: BlockKind) {
    match t
    case TextType => kind.TextBlock?
    case ThinkingType => kind.ThinkingBlock?
    case ToolType => kind.ToolUse?
  }

  /** `at` maps each tool index to the position of its own block: the block carries the tool's
      id, name and all its arguments, blocks come in order of first appearance, and no other
      block is a tool block. In particular `at` is injective. */
  ghost predicate CarriesTools(at: map<int, nat>, blocks: seq<Block>, ds: seq<ToolDelta>) {
    && (forall i :: i in at <==> i in Tools(ds))
    && (forall i <- at :: at[i] < |blocks| && IsToolBlock(blocks[at[i]], ds, i))
    && (forall j, k | 0 <= j < k < |Tools(ds)| :: at[Tools(ds)[j]] < at[Tools(ds)[k]])
    && (forall b | 0 <= b < |blocks| && blocks[b].kind.ToolUse? :: Hit(at, b))
  }

  ghost predicate Hit(at: map<int, nat>, b: nat) {
    exists i :: i in at && at[i] == b
  }

  ghost predicate IsToolBlock(b: Block, ds: seq<ToolDelta>, i: int) {
    i in Tools(ds) && b.kind == ToolUse(IdOf(ds, i), FirstOf(ds, i).name) && b.json == ArgsOf(ds, i)
  }

  ghost predicate Agrees(e: Emitter, c: Client) {
    && c.Receiving?
    && e.open == c.open == e.blockType.Some?
    && |c.blocks| == e.index + (if e.open then 1 else 0)
    && (e.open ==> SameKind(e.blockType.value, c.blocks[e.index].kind))
  }

  lemma AgreesStop(e: Emitter, c: Client)
    requires Agrees(e, c)
    ensures var x := StopIfOpen(e);
            var c' := FeedAll(c, x.1);
            Agrees(x.0, c') && !x.0.open && c' == c.(open := false)
            && x.0.tools == e.tools && x.0.generated == e.generated && x.0.index == |c.blocks|
  {
    if e.open { FeedOne(c, BlockStop(e.index)); }
  }

  lemma AgreesStart(e: Emitter, c: Client, t: BlockType, kind: BlockKind)
    requires Agrees(e, c) && SameKind(t, kind)
    ensures var x := StopIfOpen(e);
            var y := Then(x, StartBlock(x.0, t, kind));
            var c' := FeedAll(c, y.1);
            Agrees(y.0, c') && y.0.open && y.0.blockType == Some(t) && y.0.index == |c.blocks|
            && c' == c.(blocks := c.blocks + [Block(kind, "", "", "")], open := true)
            && y.0.tools == e.tools && y.0.generated == e.generated
  {
    AgreesStop(e, c);
    var x := StopIfOpen(e);
    FeedAppend(c, x.1, [BlockStart(x.0.index, kind)]);
    FeedOne(FeedAll(c, x.1), BlockStart(x.0.index, kind));
  }

  /** What a piece adds for the client, whichever blocks have to be closed and opened for it. */
  ghost predicate Heard(c: Client, c': Client, p: Piece) {
    && c.Receiving? && c'.Receiving? && c'.inputTokens == c.inputTokens
    && TextOf(c'.blocks) == TextOf(c.blocks) + (if p.Plain? then p.text else "")
    && ThinkingOf(c'.blocks) == ThinkingOf(c.blocks) + (if p.Thought? then p.text else "")
    && |c.blocks| <= |c'.blocks|
    && (forall b | 0 <= b < |c.blocks| :: c'.blocks[b].kind == c.blocks[b].kind
          && c'.blocks[b].json == c.blocks[b].json)
    && (forall b | |c.blocks| <= b < |c'.blocks| :: !c'.blocks[b].kind.ToolUse?)
  }

  lemma OpenTextDelta(e: Emitter, c: Client, text: string)
    requires Agrees(e, c) && e.open && e.blockType == Some(TextType)
    ensures var c' := Feed(c, TextDelta(e.index, text));
            Agrees(e, c') && Heard(c, c', Plain(text)) && c'.stray == c.stray
  {
    var i := e.index;
    CollectedLast(c.blocks, c.blocks[i].(text := c.blocks[i].text + text));
  }

  lemma PlainHeard(e: Emitter, c: Client, text: string)
    requires Agrees(e, c)
    ensures var x := EmitPlain(e, text);
            var c' := FeedAll(c, x.1);
            && Agrees(x.0, c') && Heard(c, c', Plain(text)) && c'.stray == c.stray
            && x.0.tools == e.tools && x.0.generated == e.generated && x.0.blockType == Some(TextType)
  {
    hide TextOf, ThinkingOf, FeedAll;
    if e.open && e.blockType == Some(TextType) {
      FeedOne(c, TextDelta(e.index, text));
      OpenTextDelta(e, c, text);
    } else {
      AgreesStart(e, c, TextType, TextBlock);
      var x := StopIfOpen(e);
      var y := Then(x, StartBlock(x.0, TextType, TextBlock));
      var c1 := FeedAll(c, y.1);
      CollectedSnoc(c.blocks, Block(TextBlock, "", "", ""));
      FeedAppend(c, y.1, [TextDelta(y.0.index, text)]);
      FeedOne(c1, TextDelta(y.0.index, text));
      OpenTextDelta(y.0, c1, text);
    }
  }

  lemma ThoughtHeard(e: Emitter, c: Client, t: string)
    requires Agrees(e, c) && e.open
    ensures var c' := FeedAll(c, [ThinkingDelta(e.index, t)]);
            && Agrees(e, c') && Heard(c, c', Thought(t))
            && c'.stray == (c.stray || e.blockType != Some(ThinkingType))
  {
    FeedOne(c, ThinkingDelta(e.index, t));
    CollectedLast(c.blocks, c.blocks[e.index].(thinking := c.blocks[e.index].thinking + t));
  }

  lemma OpenThinkHeard(e: Emitter, c: Client)
    requires Agrees(e, c)
    ensures var x := EmitOpenThink(e);
            var c' := FeedAll(c, x.1);
            && Agrees(x.0, c') && Heard(c, c', OpenThink) && c'.stray == c.stray
            && x.0.tools == e.tools && x.0.generated == e.generated && x.0.blockType == Some(ThinkingType)
  {
    hide TextOf, ThinkingOf, FeedAll;
    AgreesStart(e, c, ThinkingType, ThinkingBlock);
    CollectedSnoc(c.blocks, Block(ThinkingBlock, "", "", ""));
  }

  lemma PieceHeard(e: Emitter, c: Client, p: Piece)
    requires Agrees(e, c) && (p.Thought? || p.CloseThink? ==> e.open)
    ensures var x := EmitPiece(e, p);
            var c' := FeedAll(c, x.1);
            && Agrees(x.0, c') && Heard(c, c', p)
            && c'.stray == (c.stray || (p.Thought? && e.blockType != Some(ThinkingType)))
            && x.0.tools == e.tools && x.0.generated == e.generated
            && x.0.blockType == (match p
                                 case Plain(_) => Some(TextType)
                                 case OpenThink => Some(ThinkingType)
                                 case Thought(_) => e.blockType
                                 case CloseThink => None)
            && (p.Thought? ==> x.0.index == e.index)
  {
    hide FeedAll, EmitPlain, EmitOpenThink;
    match p
    case Plain(t) => PlainHeard(e, c, t);
    case OpenThink => OpenThinkHeard(e, c);
    case Thought(t) => ThoughtHeard(e, c, t);
    case CloseThink => AgreesStop(e, c);
  }

  /** Blocks added or extended by text leave every tool block as it was. */
  lemma HeardKeepsTools(c: Client, c': Client, p: Piece, at: map<int, nat>, ds: seq<ToolDelta>)
    requires Heard(c, c', p) && CarriesTools(at, c.blocks, ds)
    ensures CarriesTools(at, c'.blocks, ds)
  {
  }

  // ---------------------------------------------------------------- tool calls

  /** `ds'` announces the same tools as `ds`, with more arguments for one of them. */
  ghost predicate Extends(ds: seq<ToolDelta>, ds': seq<ToolDelta>, index: int, args: string) {
    && Tools(ds') == Tools(ds)
    && (forall i <- Tools(ds) ::
          && IdOf(ds', i) == IdOf(ds, i) && FirstOf(ds', i).name == FirstOf(ds, i).name
          && ArgsOf(ds', i) == ArgsOf(ds, i) + (if i == index then args else ""))
  }

  lemma ExtendsSeen(ds: seq<ToolDelta>, d: ToolDelta)
    requires d.index in Tools(ds)
    ensures Extends(ds, ds + [d], d.index, d.args)
  {
    hide Tools, ArgsOf, FirstOf, IdOf, Unnamed;
    ToolsSnoc(ds, d);
  }

  lemma ExtendsNew(ds: seq<ToolDelta>, d: ToolDelta)
    requires d.index !in Tools(ds)
    ensures Extends(ds + [d.(args := "")], ds + [d], d.index, d.args)
  {
    hide Tools, ArgsOf, FirstOf, IdOf, Unnamed;
    ToolsSnoc(ds, d);
    ToolsSnoc(ds, d.(args := ""));
    UnseenHasNoArgs(ds, d.index);
  }

  ghost predicate SameText(c: Client, c': Client) {
    && c.Receiving? && c'.Receiving? && c'.inputTokens == c.inputTokens
    && TextOf(c'.blocks) == TextOf(c.blocks) && ThinkingOf(c'.blocks) == ThinkingOf(c.blocks)
  }

  /** The open block is the tool's own. */
  predicate InFocus(e: Emitter, index: int) {
    e.open && index in e.tools && e.tools[index] == e.index
  }

  lemma ArgsHeard(e: Emitter, c: Client, d: ToolDelta, ds: seq<ToolDelta>, ds': seq<ToolDelta>)
    requires Agrees(e, c) && CarriesTools(e.tools, c.blocks, ds)
    requires d.index in e.tools && Extends(ds, ds', d.index, d.args)
    ensures var es := if d.args == "" then [] else [InputJsonDelta(e.tools[d.index], d.args)];
            var c' := FeedAll(c, es);
            && Agrees(e, c') && CarriesTools(e.tools, c'.blocks, ds') && SameText(c, c')
            && c'.stray == (c.stray || (d.args != "" && !InFocus(e, d.index)))
  {
    hide Tools, ArgsOf, FirstOf, IdOf, Unnamed, TextOf, ThinkingOf, IsToolBlock;
    var i := e.tools[d.index];
    ToolsKnown(e.tools, c.blocks, ds);
    ToolExtended(e.tools, c.blocks, ds, ds', d.index, d.args);
    if d.args == "" {
      assert c.blocks[i].json + "" == c.blocks[i].json;
      assert c.blocks[i := c.blocks[i]] == c.blocks;
    } else {
      FeedOne(c, InputJsonDelta(i, d.args));
      CollectedJson(c.blocks, i, c.blocks[i].json + d.args);
    }
  }

  lemma ToolExtended(at: map<int, nat>, blocks: seq<Block>, ds: seq<ToolDelta>, ds': seq<ToolDelta>, index: int,
                     args: string)
    requires CarriesTools(at, blocks, ds) && index in at && Extends(ds, ds', index, args)
    ensures var b := blocks[at[index]]; CarriesTools(at, blocks[at[index] := b.(json := b.json + args)], ds')
  {
    hide Tools, ArgsOf, FirstOf, IdOf, Unnamed;
    Injective(at, blocks, ds);
  }

  lemma Injective(at: map<int, nat>, blocks: seq<Block>, ds: seq<ToolDelta>)
    requires CarriesTools(at, blocks, ds)
    ensures forall i <- at, k <- at :: at[i] == at[k] ==> i == k
  {
    forall i <- at, k <- at | at[i] == at[k] ensures i == k {
      var p: nat :| p < |Tools(ds)| && Tools(ds)[p] == i;
      var q: nat :| q < |Tools(ds)| && Tools(ds)[q] == k;
    }
  }

  lemma StartToolHeard(e: Emitter, c: Client, d: ToolDelta, ds: seq<ToolDelta>)
    requires Agrees(e, c) && CarriesTools(e.tools, c.blocks, ds) && e.generated == Unnamed(ds)
    requires d.index !in e.tools
    ensures var x := StartTool(e, d);
            var c' := FeedAll(c, x.1);
            && Agrees(x.0, c') && SameText(c, c') && c'.stray == c.stray
            && InFocus(x.0, d.index) && x.0.blockType == Some(ToolType)
            && CarriesTools(x.0.tools, c'.blocks, ds + [d.(args := "")])
            && x.0.generated == Unnamed(ds + [d])
  {
    hide Tools, ArgsOf, FirstOf, IdOf, Unnamed, TextOf, ThinkingOf, CarriesTools;
    ToolsKnown(e.tools, c.blocks, ds);
    var id := if d.id != "" then Given(d.id) else Generated(e.generated);
    var kind := ToolUse(id, d.name);
    AgreesStart(e, c, ToolType, kind);
    CollectedSnoc(c.blocks, Block(kind, "", "", ""));
    ToolsSnoc(ds, d);
    ToolAdded(e.tools, c.blocks, ds, d.(args := ""), Block(kind, "", "", ""));
  }

  lemma ToolAdded(at: map<int, nat>, blocks: seq<Block>, ds: seq<ToolDelta>, d: ToolDelta, b: Block)
    requires CarriesTools(at, blocks, ds) && d.index !in Tools(ds) && d.args == ""
    requires b.kind == ToolUse(if d.id != "" then Given(d.id) else Generated(Unnamed(ds)), d.name) && b.json == ""
    ensures CarriesTools(at[d.index := |blocks|], blocks + [b], ds + [d])
  {
    hide Tools, ArgsOf, FirstOf, IdOf, Unnamed, IsToolBlock, Hit;
    var at', blocks' := at[d.index := |blocks|], blocks + [b];
    ToolStarts(b, ds, d);
    forall i <- at' ensures at'[i] < |blocks'| && IsToolBlock(blocks'[at'[i]], ds + [d], i) {
      if i != d.index { ToolStays(blocks[at[i]], ds, d, i); }
    }
    AddedInOrder(at, |blocks|, Tools(ds), d.index);
    AddedHit(at, blocks, d.index, b);
  }

  lemma ToolStarts(b: Block, ds: seq<ToolDelta>, d: ToolDelta)
    requires d.index !in Tools(ds) && d.args == ""
    requires b.kind == ToolUse(if d.id != "" then Given(d.id) else Generated(Unnamed(ds)), d.name) && b.json == ""
    ensures Tools(ds + [d]) == Tools(ds) + [d.index] && IsToolBlock(b, ds + [d], d.index)
  {
    hide Tools, ArgsOf, FirstOf, IdOf, Unnamed;
    ToolsSnoc(ds, d);
    UnseenHasNoArgs(ds, d.index);
  }

  lemma ToolStays(b: Block, ds: seq<ToolDelta>, d: ToolDelta, i: int)
    requires IsToolBlock(b, ds, i) && i != d.index
    ensures IsToolBlock(b, ds + [d], i)
  {
    hide Tools, ArgsOf, FirstOf, IdOf, Unnamed;
    ToolsSnoc(ds, d);
  }

  lemma AddedInOrder(at: map<int, nat>, n: nat, ts: seq<int>, index: int)
    requires (forall i <- ts :: i in at && at[i] < n) && index !in ts
    requires forall j, k | 0 <= j < k < |ts| :: ts[j] in at && ts[k] in at && at[ts[j]] < at[ts[k]]
    ensures var at', ts' := at[index := n], ts + [index];
            forall j, k | 0 <= j < k < |ts'| :: ts'[j] in at' && ts'[k] in at' && at'[ts'[j]] < at'[ts'[k]]
  {
    var at', ts' := at[index := n], ts + [index];
    forall j, k | 0 <= j < k < |ts'| ensures ts'[j] in at' && ts'[k] in at' && at'[ts'[j]] < at'[ts'[k]] {
      assert ts[j] in ts && ts'[j] == ts[j];
      if k < |ts| { assert ts[k] in ts && ts'[k] == ts[k]; }
    }
  }

  lemma AddedHit(at: map<int, nat>, blocks: seq<Block>, index: int, b: Block)
    requires index !in at
    requires forall k | 0 <= k < |blocks| && blocks[k].kind.ToolUse? :: Hit(at, k)
    ensures var at', blocks' := at[index := |blocks|], blocks + [b];
            forall k | 0 <= k < |blocks'| && blocks'[k].kind.ToolUse? :: Hit(at', k)
  {
    var at', blocks' := at[index := |blocks|], blocks + [b];
    forall k: nat | k < |blocks'| && blocks'[k].kind.ToolUse? ensures Hit(at', k) {
      if k < |blocks| {
        assert Hit(at, k);
        var i :| i in at && at[i] == k;
        assert at'[i] == k;
      } else {
        assert at'[index] == k;
      }
    }
  }

  lemma ToolsKnown(at: map<int, nat>, blocks: seq<Block>, ds: seq<ToolDelta>)
    requires CarriesTools(at, blocks, ds)
    ensures forall i :: i in at <==> i in Tools(ds)
    ensures forall i <- at :: at[i] < |blocks| && blocks[at[i]].kind.ToolUse?
  {
  }

  lemma CallHeard(e: Emitter, c: Client, d: ToolDelta, ds: seq<ToolDelta>)
    requires Agrees(e, c) && CarriesTools(e.tools, c.blocks, ds) && e.generated == Unnamed(ds)
    ensures var x := EmitCall(e, d);
            var c' := FeedAll(c, x.1);
            && Agrees(x.0, c') && SameText(c, c')
            && c'.stray == (c.stray || (d.index in e.tools && d.args != "" && !InFocus(e, d.index)))
            && (if d.index in e.tools then x.0 == e else InFocus(x.0, d.index) && x.0.blockType == Some(ToolType))
            && CarriesTools(x.0.tools, c'.blocks, ds + [d]) && x.0.generated == Unnamed(ds + [d])
  {
    hide Tools, ArgsOf, FirstOf, IdOf, Unnamed, TextOf, ThinkingOf, FeedAll, CarriesTools, StartTool;
    ToolsKnown(e.tools, c.blocks, ds);
    var x := if d.index in e.tools then (e, []) else StartTool(e, d);
    if d.index in e.tools {
      ToolsSnoc(ds, d);
      ExtendsSeen(ds, d);
      ArgsHeard(e, c, d, ds, ds + [d]);
      var delta := InputJsonDelta(e.tools[d.index], d.args);
      assert [] + [delta] == [delta];
    } else {
      StartToolHeard(e, c, d, ds);
      ExtendsNew(ds, d);
      var c1 := FeedAll(c, x.1);
      ArgsHeard(x.0, c1, d, ds + [d.(args := "")], ds + [d]);
      if d.args != "" { FeedAppend(c, x.1, [InputJsonDelta(x.0.tools[d.index], d.args)]); }
    }
  }

  // ---------------------------------------------------------------- a whole body

  /** What the open block is for, as far as the operations alone tell. */
  datatype Focus = Nothing | OnText | OnThinking | OnTool(index: int)

  /** What a list of operations says, with everything about blocks left out. The last field
      tells whether every thought came while the thinking block was the open one and every
      argument fragment while its own tool's block was: nothing else had started in between. */
  datatype Gist = Gist(reading: Reading, calls: seq<ToolDelta>, focus: Focus, orderly: bool)

  function AddPiece(g: Gist, p: Piece): Gist {
    Gist(ReadPiece(g.reading, p), g.calls,
         match p
         case Plain(_) => OnText
         case OpenThink => OnThinking
         case Thought(_) => g.focus
         case CloseThink => Nothing,
         g.orderly && (p.Thought? ==> g.focus == OnThinking))
  }

  function AddCall(g: Gist, d: ToolDelta): Gist {
    var seen := d.index in Tools(g.calls);
    Gist(g.reading, g.calls + [d],
         if seen then g.focus else OnTool(d.index),
         g.orderly && (seen && d.args != "" ==> g.focus == OnTool(d.index)))
  }

  function GistOf(ops: seq<Op>): Gist {
    if ops == [] then Gist(NOTHING_READ, [], Nothing, true)
    else
      var g, op := GistOf(ops[..|ops| - 1]), ops[|ops| - 1];
      match op
      case Say(p) => AddPiece(g, p)
      case Call(d) => AddCall(g, d)
      case _ => g
  }

  lemma {:induction false} GistProjects(ops: seq<Op>)
    ensures GistOf(ops).reading == ReadPieces(NOTHING_READ, PiecesOf(ops)) && GistOf(ops).calls == CallsOf(ops)
  {
    if ops != [] {
      var init, op := ops[..|ops| - 1], ops[|ops| - 1];
      GistProjects(init);
      if op.Say? {
        var ps := PiecesOf(init);
        assert (ps + [op.piece])[..|ps|] == ps;
      }
    }
  }

  ghost predicate FocusIs(f: Focus, e: Emitter) {
    match f
    case Nothing => !e.open
    case OnText => e.blockType == Some(TextType)
    case OnThinking => e.blockType == Some(ThinkingType)
    case OnTool(i) => e.blockType == Some(ToolType) && InFocus(e, i)
  }

  /** What a client has understood of the events sent for operations with the given gist. */
  ghost predicate Understood(g: Gist, input: int, e: Emitter, c: Client) {
    && Agrees(e, c) && c.inputTokens == input
    && CarriesTools(e.tools, c.blocks, g.calls) && e.generated == Unnamed(g.calls)
    && TextOf(c.blocks) == g.reading.before + g.reading.after && ThinkingOf(c.blocks) == g.reading.thinking
    && (g.reading.after != "" ==> g.reading.began)
    && (InThink(g.reading) ==> e.open)
    && FocusIs(g.focus, e) && c.stray == !g.orderly
  }

  lemma AgreesOpen(e: Emitter, c: Client)
    requires Agrees(e, c)
    ensures c.Receiving? && e.open == e.blockType.Some?
  {
  }

  lemma UnderstoodPiece(g: Gist, input: int, e: Emitter, c: Client, p: Piece)
    requires Understood(g, input, e, c)
    requires p.Thought? || p.CloseThink? ==> InThink(g.reading)
    ensures var x := EmitPiece(e, p); Understood(AddPiece(g, p), input, x.0, FeedAll(c, x.1))
  {
    hide Tools, ArgsOf, FirstOf, IdOf, Unnamed, TextOf, ThinkingOf, FeedAll, CarriesTools, Agrees, EmitPiece;
    AgreesOpen(e, c);
    PieceHeard(e, c, p);
    var x := EmitPiece(e, p);
    var c' := FeedAll(c, x.1);
    HeardKeepsTools(c, c', p, e.tools, g.calls);
    AgreesOpen(x.0, c');
    assert g.reading.before + g.reading.after + "" == g.reading.before + g.reading.after;
  }

  lemma InFocusUnique(g: Gist, input: int, e: Emitter, c: Client, index: int)
    requires Understood(g, input, e, c)
    ensures InFocus(e, index) <==> g.focus == OnTool(index)
  {
    hide Tools, ArgsOf, FirstOf, IdOf, Unnamed, TextOf, ThinkingOf;
    Injective(e.tools, c.blocks, g.calls);
  }

  /** After a tool delta the focus is where it was, or on a tool that has just started. */
  lemma CallFocus(g: Gist, e: Emitter, e': Emitter, d: ToolDelta)
    requires FocusIs(g.focus, e)
    requires if d.index in Tools(g.calls) then e' == e else InFocus(e', d.index) && e'.blockType == Some(ToolType)
    ensures FocusIs(AddCall(g, d).focus, e')
  {
    hide Tools;
  }

  lemma UnderstoodCall(g: Gist, input: int, e: Emitter, c: Client, d: ToolDelta)
    requires Understood(g, input, e, c)
    ensures var x := EmitCall(e, d); Understood(AddCall(g, d), input, x.0, FeedAll(c, x.1))
  {
    InFocusUnique(g, input, e, c, d.index);
    hide Tools, ArgsOf, FirstOf, IdOf, Unnamed, TextOf, ThinkingOf, FeedAll, CarriesTools, Agrees, EmitCall, FocusIs;
    AgreesOpen(e, c);
    ToolsKnown(e.tools, c.blocks, g.calls);
    CallHeard(e, c, d, g.calls);
    var x := EmitCall(e, d);
    AgreesOpen(x.0, FeedAll(c, x.1));
    CallFocus(g, e, x.0, d);
  }

  /** From the first operation on, a client understands every well-nested body in full. */
  lemma {:induction false} BodyUnderstood(ops: seq<Op>, input: int)
    requires IsBody(ops)
    ensures var x := EmitAll(UNSTARTED, ops);
            Understood(GistOf(ops), input, x.0, FeedAll(Receiving(input, [], false, false), x.1))
  {
    var c0 := Receiving(input, [], false, false);
    if ops == [] {
      assert CarriesTools(map[], [], []);
    } else {
      var init, op := ops[..|ops| - 1], ops[|ops| - 1];
      assert init + [op] == ops;
      ProjectAppend(init, [op]);
      if op.Say? {
        assert PiecesOf([op]) == [op.piece] by { assert [op][..0] == []; }
        assert PiecesOf(ops)[..|PiecesOf(init)|] == PiecesOf(init);
      } else {
        assert PiecesOf([op]) == [] by { assert [op][..0] == []; }
      }
      BodyUnderstood(init, input);
      GistProjects(init);
      var x := EmitAll(UNSTARTED, init);
      FeedAppend(c0, x.1, Emit(x.0, op).1);
      match op
      case Say(p) => UnderstoodPiece(GistOf(init), input, x.0, FeedAll(c0, x.1), p);
      case Call(d) => UnderstoodCall(GistOf(init), input, x.0, FeedAll(c0, x.1), d);
    }
  }
}
