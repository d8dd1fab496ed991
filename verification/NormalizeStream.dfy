/**
 `_normalize_stream` (services/anthropic_backend.py): Anthropic upstream events become OpenAI
 chunks. Composed with the Responses converter it is a two-stage compiler; the main result says
 that the composition preserves the meaning of a message.
 */
module NormalizeStream {
  import opened Wrappers
  import opened Text
  import opened OpenAiChunks
  import opened ResponsesEvents
  import opened ResponsesConvert
  import opened ResponsesLaws

  datatype BlockHead = TextHead | ThinkingHead | ToolHead(id: string, name: string)

  datatype BlockDelta =
    | TextPiece(text: string)
    | ThinkingPiece(thinking: string)
    | JsonPiece(partialJson: string)
    | OtherDelta

  /** `Noise` stands for every event type the function does not look at, such as `ping`. A
      missing usage object is None; a missing stop reason is any string outside the table. */
  datatype Upstream =
    | MessageStart(inputTokens: Option<int>)
    | BlockStart(index: int, head: BlockHead)
    | Delta(index: int, delta: BlockDelta)
    | BlockStop(index: int)
    | MessageDelta(stopReason: string, outputTokens: Option<int>)
    | MessageStop
    | Noise

  function FinishReason(stopReason: string): string {
    match stopReason
    case "end_turn" => "stop"
    case "stop_sequence" => "stop"
    case "max_tokens" => "length"
    case "tool_use" => "tool_calls"
    case _ => "stop"
  }

  // ---------------------------------------------------------------- the normaliser

  datatype Counters = Counters(input: int, output: int)

  function Normalize(n: Counters, e: Upstream): (Counters, seq<Chunk>) {
    match e
    case MessageStart(Some(input)) => (n.(input := input), [])
    case Delta(_, TextPiece(t)) => (n, [Single(t, [], "")])
    case Delta(_, ThinkingPiece(t)) => (n, [Single("<think>" + t, [], "")])
    case Delta(i, JsonPiece(t)) => (n, [Single("", [ToolDelta(i, "", "", t)], "")])
    case BlockStart(i, ToolHead(id, name)) => (n, [Single("", [ToolDelta(i, id, name, "")], "")])
    case MessageDelta(stop, output) =>
      var n' := if output.Some? then n.(output := output.value) else n;
      (n', [Chunk(Some(Usage(n'.input, n'.output, n'.input + n'.output)), [Choice("", [], FinishReason(stop))])])
    case _ => (n, [])
  }

  function NormalizeAll(es: seq<Upstream>): (Counters, seq<Chunk>) {
    if es == [] then (Counters(0, 0), [])
    else
      var (n, cs) := NormalizeAll(es[..|es| - 1]);
      var (n', more) := Normalize(n, es[|es| - 1]);
      (n', cs + more)
  }

  /** The generator, with its yields collected. */
  method NormalizeEvents(es: seq<Upstream>) returns (chunks: seq<Chunk>)
    ensures chunks == NormalizeAll(es).1
  {
    var inputTokens, outputTokens := 0, 0;
    chunks := [];
    for k := 0 to |es|
      invariant (Counters(inputTokens, outputTokens), chunks) == NormalizeAll(es[..k])
    {
      assert es[..k + 1][..k] == es[..k] && chunks + [] == chunks;
      match es[k] {
        case MessageStart(usage) =>
          if usage.Some? {
            inputTokens := usage.value;
          }
        case Delta(index, delta) =>
          match delta {
            case TextPiece(text) => chunks := chunks + [Single(text, [], "")];
            case ThinkingPiece(thinking) => chunks := chunks + [Single("<think>" + thinking, [], "")];
            case JsonPiece(partial) => chunks := chunks + [Single("", [ToolDelta(index, "", "", partial)], "")];
            case OtherDelta =>
          }
        case BlockStart(index, head) =>
          if head.ToolHead? {
            chunks := chunks + [Single("", [ToolDelta(index, head.id, head.name, "")], "")];
          }
        case MessageDelta(stop, usage) =>
          if usage.Some? {
            outputTokens := usage.value;
          }
          var total := Usage(inputTokens, outputTokens, inputTokens + outputTokens);
          chunks := chunks + [Chunk(Some(total), [Choice("", [], FinishReason(stop))])];
        case _ =>
      }
    }
    assert es[..|es|] == es;
  }

  // ---------------------------------------------------------------- well-formed upstream streams

  /** A content block of a message, in the fragments in which it is streamed. */
  datatype Part =
    | TextPart(fragments: seq<string>)
    | ThinkingPart(fragments: seq<string>)
    | ToolPart(id: string, name: string, fragments: seq<string>)

  datatype Turn = Turn(inputTokens: int, parts: seq<Part>, stopReason: string, outputTokens: int)

  function HeadOf(p: Part): BlockHead {
    match p
    case TextPart(_) => TextHead
    case ThinkingPart(_) => ThinkingHead
    case ToolPart(id, name, _) => ToolHead(id, name)
  }

  function PieceOf(p: Part, fragment: string): BlockDelta {
    match p
    case TextPart(_) => TextPiece(fragment)
    case ThinkingPart(_) => ThinkingPiece(fragment)
    case ToolPart(_, _, _) => JsonPiece(fragment)
  }

  function FragmentEvents(i: nat, p: Part, fragments: seq<string>): seq<Upstream> {
    seq(|fragments|, k requires 0 <= k < |fragments| => Delta(i, PieceOf(p, fragments[k])))
  }

  function PartsEvents(parts: seq<Part>): seq<Upstream> {
    if parts == [] then []
    else
      var i, p := |parts| - 1, parts[|parts| - 1];
      PartsEvents(parts[..i]) + [BlockStart(i, HeadOf(p))] + FragmentEvents(i, p, p.fragments) + [BlockStop(i)]
  }

  /** The event stream of a message: blocks are numbered in order and do not overlap. */
  function TurnEvents(t: Turn): seq<Upstream> {
    [MessageStart(Some(t.inputTokens))] + PartsEvents(t.parts)
    + [MessageDelta(t.stopReason, Some(t.outputTokens)), MessageStop]
  }

  /** Events from which nothing is taken: those of other types, deltas of other types, and a start
      without usage. */
  predicate IsNoise(e: Upstream) {
    e == Noise || (e.Delta? && e.delta == OtherDelta) || e == MessageStart(None)
  }

  function WithoutNoise(es: seq<Upstream>): seq<Upstream> {
    if es == [] then []
    else WithoutNoise(es[..|es| - 1]) + if IsNoise(es[|es| - 1]) then [] else [es[|es| - 1]]
  }

  // ---------------------------------------------------------------- what the message means

  /** The text of fragments of a part, as the normaliser passes it on: every thinking fragment is
      marked. */
  function FragmentText(p: Part, fs: seq<string>): string {
    match p
    case TextPart(_) => Concat(fs)
    case ThinkingPart(_) => Concat(Marked(fs))
    case ToolPart(_, _, _) => ""
  }

  function Marked(fs: seq<string>): seq<string> {
    seq(|fs|, k requires 0 <= k < |fs| => "<think>" + fs[k])
  }

  function TurnText(parts: seq<Part>): string {
    if parts == [] then ""
    else
      var p := parts[|parts| - 1];
      TurnText(parts[..|parts| - 1]) + FragmentText(p, p.fragments)
  }

  function Anonymous(parts: seq<Part>): nat {
    if parts == [] then 0
    else
      var p := parts[|parts| - 1];
      Anonymous(parts[..|parts| - 1]) + if p.ToolPart? && p.id == "" then 1 else 0
  }

  /** One function call for each tool_use block, in order, with all its argument fragments. */
  function TurnCalls(parts: seq<Part>): seq<Item> {
    if parts == [] then []
    else
      var init, p := parts[..|parts| - 1], parts[|parts| - 1];
      var calls := TurnCalls(init);
      if p.ToolPart? then
        var callId := if p.id != "" then Given(p.id) else Generated(Anonymous(init));
        calls + [FunctionCall(|calls|, callId, p.name, Concat(p.fragments))]
      else calls
  }

  function TurnResponse(t: Turn): Response {
    var text, calls := TurnText(t.parts), TurnCalls(t.parts);
    Response((if text != "" || calls == [] then [MessageItem(text)] else []) + calls,
             if t.stopReason == "max_tokens" then IncompleteStatus else CompletedStatus,
             Usage(t.inputTokens, t.outputTokens, t.inputTokens + t.outputTokens))
  }

  // ---------------------------------------------------------------- first stage: the chunks of a message

  function PartDeltas(i: nat, p: Part): seq<ToolDelta> {
    if p.ToolPart? then [ToolDelta(i, p.id, p.name, "")] + ArgsDeltas(i, p.fragments) else []
  }

  function ArgsDeltas(i: int, fs: seq<string>): seq<ToolDelta> {
    seq(|fs|, k requires 0 <= k < |fs| => ToolDelta(i, "", "", fs[k]))
  }

  function PartsDeltas(parts: seq<Part>): seq<ToolDelta> {
    if parts == [] then [] else PartsDeltas(parts[..|parts| - 1]) + PartDeltas(|parts| - 1, parts[|parts| - 1])
  }

  /** What the chunks produced so far carry. */
  ghost predicate Carries(cs: seq<Chunk>, text: string, ds: seq<ToolDelta>) {
    && TextIn(cs) == text && Deltas(cs) == ds
    && LastUsage(cs).None? && LastFinish(cs) == "" && Consumed(cs) == cs && !Ended(cs)
  }

  lemma CarryOne(cs: seq<Chunk>, text: string, ds: seq<ToolDelta>, content: string, calls: seq<ToolDelta>)
    requires Carries(cs, text, ds)
    ensures Carries(cs + [Single(content, calls, "")], text + content, ds + calls)
  {
    hide TextIn, Deltas, LastUsage, LastFinish, Consumed, Ended;
    ReferenceSnoc(cs, Single(content, calls, ""));
  }

  lemma NormalizeSnoc(es: seq<Upstream>, e: Upstream)
    ensures var (n, cs) := NormalizeAll(es);
            var (n', more) := Normalize(n, e);
            NormalizeAll(es + [e]) == (n', cs + more)
  {
    assert (es + [e])[..|es|] == es;
  }

  /** The deltas that fragments of a part add. */
  function FragmentDeltas(i: nat, p: Part, fs: seq<string>): seq<ToolDelta> {
    if p.ToolPart? then ArgsDeltas(i, fs) else []
  }

  function PieceText(p: Part, f: string): string {
    match p
    case TextPart(_) => f
    case ThinkingPart(_) => "<think>" + f
    case ToolPart(_, _, _) => ""
  }

  function PieceDeltas(i: nat, p: Part, f: string): seq<ToolDelta> {
    if p.ToolPart? then [ToolDelta(i, "", "", f)] else []
  }

  lemma FragmentSnoc(i: nat, p: Part, fs: seq<string>, f: string)
    ensures FragmentText(p, fs + [f]) == FragmentText(p, fs) + PieceText(p, f)
    ensures FragmentDeltas(i, p, fs + [f]) == FragmentDeltas(i, p, fs) + PieceDeltas(i, p, f)
    ensures FragmentEvents(i, p, fs + [f]) == FragmentEvents(i, p, fs) + [Delta(i, PieceOf(p, f))]
  {
    hide Concat;
    match p
    case TextPart(_) => ConcatSnoc(fs, f);
    case ThinkingPart(_) =>
      assert Marked(fs + [f]) == Marked(fs) + ["<think>" + f];
      ConcatSnoc(Marked(fs), "<think>" + f);
    case ToolPart(_, _, _) =>
  }

  lemma NoFragments(i: nat, p: Part)
    ensures FragmentText(p, []) == "" && FragmentDeltas(i, p, []) == [] && FragmentEvents(i, p, []) == []
  {
    assert Marked([]) == [];
  }

  lemma {:induction false} FragmentsCarried(es: seq<Upstream>, i: nat, p: Part, fs: seq<string>, text: string,
                                            ds: seq<ToolDelta>)
    requires Carries(NormalizeAll(es).1, text, ds)
    ensures var (n, cs) := NormalizeAll(es + FragmentEvents(i, p, fs));
            n == NormalizeAll(es).0 && Carries(cs, text + FragmentText(p, fs), ds + FragmentDeltas(i, p, fs))
  {
    hide Carries, NormalizeAll, FragmentText, FragmentDeltas, FragmentEvents;
    if fs == [] {
      NoFragments(i, p);
      assert es + [] == es && text + "" == text && ds + [] == ds;
    } else {
      var init, f := fs[..|fs| - 1], fs[|fs| - 1];
      assert init + [f] == fs;
      FragmentsCarried(es, i, p, init, text, ds);
      FragmentSnoc(i, p, init, f);
      var before := es + FragmentEvents(i, p, init);
      assert es + FragmentEvents(i, p, fs) == before + [Delta(i, PieceOf(p, f))];
      NormalizeSnoc(before, Delta(i, PieceOf(p, f)));
      FragmentCarried(NormalizeAll(before).0, NormalizeAll(before).1, i, p, f, text + FragmentText(p, init),
                      ds + FragmentDeltas(i, p, init));
      Regroup(text, FragmentText(p, init), p, f, ds, FragmentDeltas(i, p, init), i);
    }
  }

  lemma FragmentCarried(n: Counters, cs: seq<Chunk>, i: nat, p: Part, f: string, text: string, ds: seq<ToolDelta>)
    requires Carries(cs, text, ds)
    ensures var (n', more) := Normalize(n, Delta(i, PieceOf(p, f)));
            n' == n && Carries(cs + more, text + PieceText(p, f), ds + PieceDeltas(i, p, f))
  {
    hide Carries;
    assert text + "" == text && ds + [] == ds;
    match p
    case TextPart(_) => CarryOne(cs, text, ds, f, []);
    case ThinkingPart(_) => CarryOne(cs, text, ds, "<think>" + f, []);
    case ToolPart(_, _, _) => CarryOne(cs, text, ds, "", [ToolDelta(i, "", "", f)]);
  }

  lemma Regroup(text: string, more: string, p: Part, f: string, ds: seq<ToolDelta>, extra: seq<ToolDelta>, i: nat)
    ensures (text + more) + PieceText(p, f) == text + (more + PieceText(p, f))
    ensures (ds + extra) + PieceDeltas(i, p, f) == ds + (extra + PieceDeltas(i, p, f))
  {
  }

  lemma HeadCarried(es: seq<Upstream>, i: nat, p: Part, text: string, ds: seq<ToolDelta>)
    requires Carries(NormalizeAll(es).1, text, ds)
    ensures var (n, cs) := NormalizeAll(es + [BlockStart(i, HeadOf(p))]);
            n == NormalizeAll(es).0
            && Carries(cs, text, ds + if p.ToolPart? then [ToolDelta(i, p.id, p.name, "")] else [])
  {
    hide Carries, NormalizeAll;
    NormalizeSnoc(es, BlockStart(i, HeadOf(p)));
    var cs := NormalizeAll(es).1;
    assert cs + [] == cs && ds + [] == ds && text + "" == text;
    if p.ToolPart? { CarryOne(cs, text, ds, "", [ToolDelta(i, p.id, p.name, "")]); }
  }

  lemma PartsSnoc(start: seq<Upstream>, parts: seq<Part>)
    requires parts != []
    ensures var i, init, p := |parts| - 1, parts[..|parts| - 1], parts[|parts| - 1];
            && start + PartsEvents(parts)
               == start + PartsEvents(init) + [BlockStart(i, HeadOf(p))] + FragmentEvents(i, p, p.fragments)
                 + [BlockStop(i)]
            && PartsDeltas(parts)
               == PartsDeltas(init) + (if p.ToolPart? then [ToolDelta(i, p.id, p.name, "")] else [])
                 + FragmentDeltas(i, p, p.fragments)
            && TurnText(parts) == TurnText(init) + FragmentText(p, p.fragments)
  {
    hide FragmentEvents, Concat, ArgsDeltas;
    var p := parts[|parts| - 1];
    assert PartsDeltas(parts[..|parts| - 1]) + [] + [] == PartsDeltas(parts[..|parts| - 1]);
  }

  lemma NoParts()
    ensures PartsEvents([]) == [] && PartsDeltas([]) == [] && TurnText([]) == ""
  {
  }

  lemma {:induction false} PartsCarried(input: int, parts: seq<Part>)
    ensures var (n, cs) := NormalizeAll([MessageStart(Some(input))] + PartsEvents(parts));
            n == Counters(input, 0) && Carries(cs, TurnText(parts), PartsDeltas(parts))
  {
    hide Carries, NormalizeAll, FragmentEvents, FragmentText, FragmentDeltas, PartsEvents, PartsDeltas, TurnText;
    var start := [MessageStart(Some(input))];
    if parts == [] {
      NoParts();
      assert start + PartsEvents(parts) == start;
      StartCarried(input);
    } else {
      var i, init, p := |parts| - 1, parts[..|parts| - 1], parts[|parts| - 1];
      PartsCarried(input, init);
      PartsSnoc(start, parts);
      var es0 := start + PartsEvents(init);
      HeadCarried(es0, i, p, TurnText(init), PartsDeltas(init));
      var es1 := es0 + [BlockStart(i, HeadOf(p))];
      var ds1 := PartsDeltas(init) + if p.ToolPart? then [ToolDelta(i, p.id, p.name, "")] else [];
      FragmentsCarried(es1, i, p, p.fragments, TurnText(init), ds1);
      var es2 := es1 + FragmentEvents(i, p, p.fragments);
      NormalizeSnoc(es2, BlockStop(i));
      var cs := NormalizeAll(es2).1;
      assert cs + [] == cs;
    }
  }

  lemma StartCarried(input: int)
    ensures NormalizeAll([MessageStart(Some(input))]) == (Counters(input, 0), [])
    ensures Carries([], "", [])
  {
    NormalizeSnoc([], MessageStart(Some(input)));
    assert [] + [MessageStart(Some(input))] == [MessageStart(Some(input))];
    var none: seq<Chunk> := [];
    assert NormalizeAll([]) == (Counters(0, 0), none) && none + [] == none;
  }

  /** The chunks of a whole message. */
  lemma TurnCarried(t: Turn)
    ensures var cs := NormalizeAll(TurnEvents(t)).1;
            && TextIn(cs) == TurnText(t.parts) && Deltas(cs) == PartsDeltas(t.parts)
            && LastUsage(cs) == Some(Usage(t.inputTokens, t.outputTokens, t.inputTokens + t.outputTokens))
            && (LastFinish(cs) == "tool_calls" <==> t.stopReason == "tool_use")
            && (LastFinish(cs) == "length" <==> t.stopReason == "max_tokens")
            && (LastFinish(cs) == "stop" <==> t.stopReason !in {"tool_use", "max_tokens"})
            && Consumed(cs) == cs
  {
    PartsCarried(t.inputTokens, t.parts);
    hide NormalizeAll, TextIn, Deltas, Consumed, Ended, LastUsage, LastFinish, TurnText, PartsDeltas;
    var es := [MessageStart(Some(t.inputTokens))] + PartsEvents(t.parts);
    var delta := MessageDelta(t.stopReason, Some(t.outputTokens));
    assert TurnEvents(t) == (es + [delta]) + [MessageStop];
    NormalizeSnoc(es, delta);
    NormalizeSnoc(es + [delta], MessageStop);
    var cs := NormalizeAll(es).1;
    var last := Normalize(NormalizeAll(es).0, delta).1[0];
    assert NormalizeAll(TurnEvents(t)).1 == cs + [last] + [];
    assert cs + [last] + [] == cs + [last];
    ReferenceSnoc(cs, last);
    assert TextIn(cs) + "" == TextIn(cs) && Deltas(cs) + [] == Deltas(cs);
  }

  /** Events the normaliser does not look at do not matter. */
  lemma {:induction false} NoiseIgnored(es: seq<Upstream>)
    ensures NormalizeAll(es) == NormalizeAll(WithoutNoise(es))
  {
    if es != [] {
      var init, e := es[..|es| - 1], es[|es| - 1];
      NoiseIgnored(init);
      if IsNoise(e) {
        assert WithoutNoise(init) + [] == WithoutNoise(init);
        assert NormalizeAll(init).1 + [] == NormalizeAll(init).1;
      } else {
        NormalizeSnoc(WithoutNoise(init), e);
      }
    }
  }

  // ---------------------------------------------------------------- token counts of any event list

  /** The prompt tokens most recently reported by the upstream. */
  function LastInput(es: seq<Upstream>): int {
    if es == [] then 0
    else
      match es[|es| - 1]
      case MessageStart(Some(input)) => input
      case _ => LastInput(es[..|es| - 1])
  }

  function LastOutput(es: seq<Upstream>): int {
    if es == [] then 0
    else
      match es[|es| - 1]
      case MessageDelta(_, Some(output)) => output
      case _ => LastOutput(es[..|es| - 1])
  }

  lemma {:induction false} CountsReported(es: seq<Upstream>)
    ensures NormalizeAll(es).0 == Counters(LastInput(es), LastOutput(es))
  {
    if es != [] { CountsReported(es[..|es| - 1]); }
  }

  lemma LastIsLast(cs: seq<Chunk>, c: Chunk)
    requires c.usage.Some?
    ensures LastUsage(cs + [c]) == c.usage
  {
  }

  /** Whatever came before, well formed or not, a message_delta passes on the counts most recently
      reported, its own included. */
  lemma UsagePassedOn(es: seq<Upstream>, stopReason: string, output: Option<int>)
    ensures var all := es + [MessageDelta(stopReason, output)];
            && LastUsage(NormalizeAll(all).1)
               == Some(Usage(LastInput(es), LastOutput(all), LastInput(es) + LastOutput(all)))
            && LastOutput(all) == if output.Some? then output.value else LastOutput(es)
  {
    hide NormalizeAll, LastUsage, TextIn, Deltas, LastFinish, Consumed, Ended, FinishReason;
    var delta := MessageDelta(stopReason, output);
    assert (es + [delta])[..|es|] == es;
    CountsReported(es);
    NormalizeSnoc(es, delta);
    LastIsLast(NormalizeAll(es).1, Normalize(NormalizeAll(es).0, delta).1[0]);
  }

  // ---------------------------------------------------------------- second stage: the calls collected

  /** A tool block adds one tool, with all its fragments, and leaves the others alone. */
  lemma {:induction false} ToolPartCollected(ds: seq<ToolDelta>, i: int, id: string, name: string, fs: seq<string>)
    requires i !in Tools(ds)
    ensures var ds' := ds + [ToolDelta(i, id, name, "")] + ArgsDeltas(i, fs);
            && Tools(ds') == Tools(ds) + [i]
            && Unnamed(ds') == Unnamed(ds) + (if id == "" then 1 else 0)
            && i in Tools(ds') && IdOf(ds', i) == (if id != "" then Given(id) else Generated(Unnamed(ds)))
            && FirstOf(ds', i).name == name && ArgsOf(ds', i) == Concat(fs)
            && (forall j <- Tools(ds) :: j in Tools(ds')
                  && IdOf(ds', j) == IdOf(ds, j) && FirstOf(ds', j) == FirstOf(ds, j)
                  && ArgsOf(ds', j) == ArgsOf(ds, j))
  {
    hide Tools, IdOf, FirstOf, ArgsOf, Unnamed;
    var d := ToolDelta(i, id, name, "");
    if fs == [] {
      assert ds + [d] + ArgsDeltas(i, fs) == ds + [d];
      ToolsSnoc(ds, d);
      UnseenHasNoArgs(ds, i);
      assert "" + "" == "";
    } else {
      var init, f := fs[..|fs| - 1], fs[|fs| - 1];
      ToolPartCollected(ds, i, id, name, init);
      assert ds + [d] + ArgsDeltas(i, fs) == (ds + [d] + ArgsDeltas(i, init)) + [ToolDelta(i, "", "", f)];
      ToolsSnoc(ds + [d] + ArgsDeltas(i, init), ToolDelta(i, "", "", f));
    }
  }

  lemma {:induction false} CallsCollected(parts: seq<Part>)
    ensures ExpectedCalls(PartsDeltas(parts)) == TurnCalls(parts)
    ensures Unnamed(PartsDeltas(parts)) == Anonymous(parts)
    ensures forall i <- Tools(PartsDeltas(parts)) :: i < |parts|
  {
    hide Tools, IdOf, FirstOf, ArgsOf, Unnamed, ExpectedCalls, PartDeltas;
    if parts == [] {
      NothingCollected();
    } else {
      var i, init, p := |parts| - 1, parts[..|parts| - 1], parts[|parts| - 1];
      var ds := PartsDeltas(init);
      CallsCollected(init);
      if p.ToolPart? {
        CallAdded(ds, i, p.id, p.name, p.fragments);
        UnfoldPart(i, p);
        assert PartsDeltas(parts) == ds + [ToolDelta(i, p.id, p.name, "")] + ArgsDeltas(i, p.fragments);
      } else {
        NoDeltas(i, p);
        assert ds + [] == ds;
      }
    }
  }

  lemma UnfoldPart(i: nat, p: Part)
    requires p.ToolPart?
    ensures PartDeltas(i, p) == [ToolDelta(i, p.id, p.name, "")] + ArgsDeltas(i, p.fragments)
  {
  }

  lemma NoDeltas(i: nat, p: Part)
    requires !p.ToolPart?
    ensures PartDeltas(i, p) == []
  {
  }

  lemma CallAdded(ds: seq<ToolDelta>, i: int, id: string, name: string, fs: seq<string>)
    requires i !in Tools(ds)
    ensures var ds' := ds + [ToolDelta(i, id, name, "")] + ArgsDeltas(i, fs);
            var callId := if id != "" then Given(id) else Generated(Unnamed(ds));
            && ExpectedCalls(ds') == ExpectedCalls(ds) + [FunctionCall(|ExpectedCalls(ds)|, callId, name, Concat(fs))]
            && Unnamed(ds') == Unnamed(ds) + (if id == "" then 1 else 0)
            && Tools(ds') == Tools(ds) + [i]
  {
    hide Tools, IdOf, FirstOf, ArgsOf, Unnamed;
    ToolPartCollected(ds, i, id, name, fs);
    var ds' := ds + [ToolDelta(i, id, name, "")] + ArgsDeltas(i, fs);
    forall k | 0 <= k < |Tools(ds)| ensures ExpectedCall(ds', k) == ExpectedCall(ds, k) {
      assert Tools(ds)[k] in Tools(ds) && Tools(ds')[k] == Tools(ds)[k];
    }
  }

  lemma NothingCollected()
    ensures Tools([]) == [] && Unnamed([]) == 0 && ExpectedCalls([]) == []
  {
  }

  // ---------------------------------------------------------------- the two stages together

  /** A well-formed message stream, with noise anywhere, sent through the normaliser, the
      Responses converter and the controller's closing rule, ends in one completion that says
      what the message said: the function calls in order, the text, the status and the usage. */
  lemma TwoStageMeaning(order: SetOrder, t: Turn, es: seq<Upstream>)
    requires WithoutNoise(es) == TurnEvents(t)
    ensures var cs := NormalizeAll(es).1;
            var sent, client := StreamEvents(order, cs, false), ClientOf(order, cs, false);
            && client.Served? && client.response == TurnResponse(t)
            && sent != [] && sent[|sent| - 1] == Completed(TurnResponse(t))
            && (forall k | 0 <= k < |sent| - 1 :: !sent[k].Completed?)
  {
    hide NormalizeAll, StreamEvents, ClientOf, Consumed, TextIn, Deltas, Tools, TurnText, TurnCalls, PartsDeltas,
      IndexOf;
    NoiseIgnored(es);
    TurnCarried(t);
    CallsCollected(t.parts);
    var cs := NormalizeAll(es).1;
    ResponsesStreamMeaning(order, cs, false);
    assert |ExpectedCalls(Deltas(cs))| == |Tools(Deltas(cs))|;
  }
}
