/**
 The Anthropic streaming events, and a client that reads them: it follows the event grammar,
 collects every content block, and rejects the stream at the first event out of place.
 The client is the reference the stream converter is judged by.
 */
module AnthropicEvents {
  import opened OpenAiChunks

  datatype BlockKind = TextBlock | ThinkingBlock | ToolUse(id: CallId, name: string)

  datatype Event =
    | MessageStart(inputTokens: int)
    | Ping
    | BlockStart(index: nat, kind: BlockKind)
    | TextDelta(index: nat, text: string)
    | ThinkingDelta(index: nat, thinking: string)
    | InputJsonDelta(index: nat, partialJson: string)
    | BlockStop(index: nat)
    | MessageDelta(stopReason: string, outputTokens: int)
    | MessageStop

  /** A content block as collected so far. */
  datatype Block = Block(kind: BlockKind, text: string, thinking: string, json: string)

  datatype Message = Message(inputTokens: int, blocks: seq<Block>, stopReason: string, outputTokens: int)

  /** `stray` records that some delta did not go to the open block, or not to one of its kind. */
  datatype Client =
    | Waiting
    | Receiving(inputTokens: int, blocks: seq<Block>, open: bool, stray: bool)
    | Stopping(message: Message, stray: bool)
    | Complete(message: Message, stray: bool)
    | Rejected
  {
    /** Block `i` is open; only the last block started can be. */
    predicate IsOpen(i: nat) { Receiving? && open && i + 1 == |blocks| }

    predicate Strayed() { (Receiving? || Stopping? || Complete?) && stray }

    function WithBlock(i: nat, b: Block, strays: bool): Client
      requires Receiving? && i < |blocks|
    {
      this.(blocks := blocks[i := b], stray := stray || strays)
    }
  }

  function Feed(c: Client, e: Event): Client {
    match c
    case Waiting => if e.MessageStart? then Receiving(e.inputTokens, [], false, false) else Rejected
    case Receiving(input, blocks, open, stray) => Receive(c, e)
    case Stopping(message, stray) => if e.MessageStop? then Complete(message, stray) else Rejected
    case _ => Rejected
  }

  function Receive(c: Client, e: Event): Client
    requires c.Receiving?
  {
    match e
    case Ping => c
    case BlockStart(i, kind) =>
      if !c.open && i == |c.blocks| then c.(blocks := c.blocks + [Block(kind, "", "", "")], open := true)
      else Rejected
    case BlockStop(i) => if c.IsOpen(i) then c.(open := false) else Rejected
    case TextDelta(i, t) =>
      if c.IsOpen(i) && c.blocks[i].kind.TextBlock? then
        c.WithBlock(i, c.blocks[i].(text := c.blocks[i].text + t), false)
      else Rejected
    case ThinkingDelta(i, t) =>
      if c.IsOpen(i) then
        c.WithBlock(i, c.blocks[i].(thinking := c.blocks[i].thinking + t), !c.blocks[i].kind.ThinkingBlock?)
      else Rejected
    case InputJsonDelta(i, t) =>
      if i < |c.blocks| && c.blocks[i].kind.ToolUse? then
        c.WithBlock(i, c.blocks[i].(json := c.blocks[i].json + t), !c.IsOpen(i))
      else Rejected
    case MessageDelta(stop, output) =>
      if c.open then Rejected else Stopping(Message(c.inputTokens, c.blocks, stop, output), c.stray)
    case _ => Rejected
  }

  function FeedAll(c: Client, es: seq<Event>): Client {
    if es == [] then c else Feed(FeedAll(c, es[..|es| - 1]), es[|es| - 1])
  }

  lemma {:induction false} FeedAppend(c: Client, xs: seq<Event>, ys: seq<Event>)
    ensures FeedAll(c, xs + ys) == FeedAll(FeedAll(c, xs), ys)
  {
    if ys == [] {
      assert xs + ys == xs;
    } else {
      assert (xs + ys)[..|xs + ys| - 1] == xs + ys[..|ys| - 1];
      FeedAppend(c, xs, ys[..|ys| - 1]);
    }
  }

  lemma FeedOne(c: Client, e: Event)
    ensures FeedAll(c, [e]) == Feed(c, e)
  {
    assert [e][..0] == [];
  }

  // ---------------------------------------------------------------- what was collected

  function TextOf(blocks: seq<Block>): string {
    if blocks == [] then "" else TextOf(blocks[..|blocks| - 1]) + blocks[|blocks| - 1].text
  }

  function ThinkingOf(blocks: seq<Block>): string {
    if blocks == [] then "" else ThinkingOf(blocks[..|blocks| - 1]) + blocks[|blocks| - 1].thinking
  }

  lemma CollectedSnoc(blocks: seq<Block>, b: Block)
    ensures TextOf(blocks + [b]) == TextOf(blocks) + b.text
    ensures ThinkingOf(blocks + [b]) == ThinkingOf(blocks) + b.thinking
  {
    assert (blocks + [b])[..|blocks|] == blocks;
  }

  /** Replacing the last block. */
  lemma CollectedLast(blocks: seq<Block>, b: Block)
    requires blocks != []
    ensures var n := |blocks| - 1;
            && TextOf(blocks[n := b]) == TextOf(blocks[..n]) + b.text
            && ThinkingOf(blocks[n := b]) == ThinkingOf(blocks[..n]) + b.thinking
  {
    assert blocks[|blocks| - 1 := b][..|blocks| - 1] == blocks[..|blocks| - 1];
  }

  /** Arguments of a tool do not disturb the text. */
  lemma {:induction false} CollectedJson(blocks: seq<Block>, i: nat, json: string)
    requires i < |blocks|
    ensures var blocks' := blocks[i := blocks[i].(json := json)];
            TextOf(blocks') == TextOf(blocks) && ThinkingOf(blocks') == ThinkingOf(blocks)
  {
    var n := |blocks| - 1;
    var blocks' := blocks[i := blocks[i].(json := json)];
    if i == n {
      assert blocks'[..n] == blocks[..n];
    } else {
      assert blocks'[..n] == blocks[..n][i := blocks[i].(json := json)];
      CollectedJson(blocks[..n], i, json);
    }
  }

  // ---------------------------------------------------------------- closed blocks keep their text

  function BlocksOf(c: Client): seq<Block> {
    match c
    case Receiving(_, blocks, _, _) => blocks
    case Stopping(m, _) => m.blocks
    case Complete(m, _) => m.blocks
    case _ => []
  }

  /** The first b blocks are closed. */
  predicate AreClosed(c: Client, b: nat) {
    b <= |BlocksOf(c)| && (c.Receiving? && c.open ==> b < |c.blocks|)
  }

  lemma FeedKeepsClosed(c: Client, e: Event, b: nat)
    requires AreClosed(c, b) && !Feed(c, e).Rejected?
    ensures var c' := Feed(c, e);
            && AreClosed(c', b)
            && TextOf(BlocksOf(c')[..b]) == TextOf(BlocksOf(c)[..b])
            && ThinkingOf(BlocksOf(c')[..b]) == ThinkingOf(BlocksOf(c)[..b])
  {
    hide TextOf, ThinkingOf;
    var was, now := BlocksOf(c)[..b], BlocksOf(Feed(c, e))[..b];
    if e.InputJsonDelta? && c.Receiving? && e.index < b {
      CollectedJson(was, e.index, c.blocks[e.index].json + e.partialJson);
      assert now == was[e.index := was[e.index].(json := c.blocks[e.index].json + e.partialJson)];
    } else {
      assert now == was;
    }
  }

  /** Whatever follows, the text and the thinking of closed blocks stay as they are. */
  lemma {:induction false} ClosedStays(c: Client, es: seq<Event>, b: nat)
    requires AreClosed(c, b) && !FeedAll(c, es).Rejected?
    ensures var c' := FeedAll(c, es);
            && AreClosed(c', b)
            && TextOf(BlocksOf(c')[..b]) == TextOf(BlocksOf(c)[..b])
            && ThinkingOf(BlocksOf(c')[..b]) == ThinkingOf(BlocksOf(c)[..b])
  {
    hide TextOf, ThinkingOf, AreClosed, BlocksOf;
    if es != [] {
      var init := es[..|es| - 1];
      ClosedStays(c, init, b);
      FeedKeepsClosed(FeedAll(c, init), es[|es| - 1], b);
    }
  }

  // ---------------------------------------------------------------- thinking blocks

  function ThinkingBlocks(blocks: seq<Block>): nat {
    if blocks == [] then 0
    else ThinkingBlocks(blocks[..|blocks| - 1]) + if blocks[|blocks| - 1].kind.ThinkingBlock? then 1 else 0
  }

  /** How many thinking blocks the events start. */
  function ThinkingStarts(es: seq<Event>): nat {
    if es == [] then 0
    else ThinkingStarts(es[..|es| - 1]) + if StartsThinking(es[|es| - 1]) then 1 else 0
  }

  predicate StartsThinking(e: Event) { e.BlockStart? && e.kind.ThinkingBlock? }

  lemma {:induction false} StartsAppend(xs: seq<Event>, ys: seq<Event>)
    ensures ThinkingStarts(xs + ys) == ThinkingStarts(xs) + ThinkingStarts(ys)
  {
    if ys == [] {
      assert xs + ys == xs;
    } else {
      assert (xs + ys)[..|xs + ys| - 1] == xs + ys[..|ys| - 1];
      StartsAppend(xs, ys[..|ys| - 1]);
    }
  }

  lemma {:induction false} CountByKind(blocks: seq<Block>, blocks': seq<Block>)
    requires |blocks| == |blocks'| && forall b | 0 <= b < |blocks| :: blocks'[b].kind == blocks[b].kind
    ensures ThinkingBlocks(blocks') == ThinkingBlocks(blocks)
  {
    if blocks != [] {
      var n := |blocks| - 1;
      assert forall b | 0 <= b < n :: blocks'[..n][b].kind == blocks[..n][b].kind;
      CountByKind(blocks[..n], blocks'[..n]);
    }
  }

  /** One event adds at most one block, of the kind it says, and leaves the kinds of the others. */
  lemma FeedGrows(c: Client, e: Event)
    requires !Feed(c, e).Rejected?
    ensures var blocks, blocks' := BlocksOf(c), BlocksOf(Feed(c, e));
            if |blocks'| == |blocks| then
              !StartsThinking(e) && forall b | 0 <= b < |blocks| :: blocks'[b].kind == blocks[b].kind
            else
              |blocks'| == |blocks| + 1 && blocks'[..|blocks|] == blocks
              && (blocks'[|blocks|].kind.ThinkingBlock? <==> StartsThinking(e))
  {
  }

  /** A client that goes on keeps the kinds of its blocks, and adds those that are started. */
  lemma FeedKinds(c: Client, e: Event)
    requires !Feed(c, e).Rejected?
    ensures var blocks, blocks' := BlocksOf(c), BlocksOf(Feed(c, e));
            && |blocks| <= |blocks'| && (forall b | 0 <= b < |blocks| :: blocks'[b].kind == blocks[b].kind)
            && ThinkingBlocks(blocks') == ThinkingBlocks(blocks) + if StartsThinking(e) then 1 else 0
  {
    hide Feed, BlocksOf, StartsThinking;
    var blocks, blocks' := BlocksOf(c), BlocksOf(Feed(c, e));
    FeedGrows(c, e);
    if |blocks'| == |blocks| { CountByKind(blocks, blocks'); } else { assert blocks'[..|blocks|] == blocks; }
  }

  lemma {:induction false} KindsStay(c: Client, es: seq<Event>)
    requires !FeedAll(c, es).Rejected?
    ensures var blocks, blocks' := BlocksOf(c), BlocksOf(FeedAll(c, es));
            && |blocks| <= |blocks'| && (forall b | 0 <= b < |blocks| :: blocks'[b].kind == blocks[b].kind)
            && ThinkingBlocks(blocks') == ThinkingBlocks(blocks) + ThinkingStarts(es)
  {
    hide Feed, BlocksOf, ThinkingBlocks, StartsThinking;
    if es != [] {
      var init, e := es[..|es| - 1], es[|es| - 1];
      NeverBack(e);
      KindsStay(c, init);
      FeedKinds(FeedAll(c, init), e);
    }
  }

  lemma NeverBack(e: Event)
    ensures Feed(Rejected, e) == Rejected
  {
  }

  lemma {:induction false} OnlyThinking(blocks: seq<Block>, a: nat, b: nat)
    requires a < b < |blocks| && blocks[a].kind.ThinkingBlock? && blocks[b].kind.ThinkingBlock?
    ensures ThinkingBlocks(blocks) > 1
  {
    var n := |blocks| - 1;
    if b < n { OnlyThinking(blocks[..n], a, b); } else { SomeThinking(blocks[..n], a); }
  }

  lemma {:induction false} SomeThinking(blocks: seq<Block>, a: nat)
    requires a < |blocks| && blocks[a].kind.ThinkingBlock?
    ensures ThinkingBlocks(blocks) > 0
  {
    var n := |blocks| - 1;
    if a < n { SomeThinking(blocks[..n], a); }
  }

  lemma {:induction false} TextApart(blocks: seq<Block>, b: nat)
    requires b <= |blocks|
    ensures TextOf(blocks) == TextOf(blocks[..b]) + TextOf(blocks[b..])
  {
    if b == |blocks| {
      assert blocks[..b] == blocks && TextOf(blocks) + "" == TextOf(blocks);
    } else {
      var n := |blocks| - 1;
      assert blocks[..n][..b] == blocks[..b] && blocks[..n][b..] == blocks[b..][..n - b];
      TextApart(blocks[..n], b);
    }
  }
}
