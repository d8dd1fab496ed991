/**
 Request translation: `responses_to_openai_request` (services/responses_convert.py) followed by
 `_openai_to_anthropic_params` (services/anthropic_backend.py). Tool arguments stay strings:
 `json.loads` is applied to each on its own and does not move them.
 */
module RequestConvert {

  // ---------------------------------------------------------------- Responses input

  datatype InPart = InText(text: string) | InImage(url: string) | InFile(url: string) | InOther

  /** Content of an input item; anything but a string or a list is shown as a string. */
  datatype InContent = InString(text: string) | InList(parts: seq<InPart>) | InShown(shown: string)

  /** An input item with the fields the translation reads; NotAnObject stands for list entries
      that are no dictionaries. */
  datatype Item =
    | Item(itemType: string, role: string, callId: string, name: string, arguments: string, output: string,
           content: InContent)
    | NotAnObject

  datatype Input = PlainInput(text: string) | ItemInput(items: seq<Item>) | OtherInput

  // ---------------------------------------------------------------- OpenAI messages

  datatype Part = TextPart(text: string) | ImagePart(url: string)

  datatype Content = Words(text: string) | PartList(parts: seq<Part>)

  datatype Call = Call(id: string, name: string, arguments: string)

  /** `Calling` is an assistant message with tool calls; Python's None as its content is NO_CONTENT,
      which adds nothing to the blocks either. */
  datatype Message =
    | Said(role: string, content: Content)
    | Answer(callId: string, output: string)
    | Calling(content: Content, calls: seq<Call>)

  const NO_CONTENT := Words("")

  /** The only messages with tool calls that the first stage makes. */
  function CallsOnly(calls: seq<Call>): Message {
    Calling(NO_CONTENT, calls)
  }

  function PartsOf(ps: seq<InPart>): seq<Part> {
    if ps == [] then []
    else
      PartsOf(ps[..|ps| - 1])
      + match ps[|ps| - 1]
        case InText(t) => [TextPart(t)]
        case InImage(u) => [ImagePart(u)]
        case InFile(u) => if u != "" then [ImagePart(u)] else []
        case InOther => []
  }

  function ConvertContent(c: InContent): Content {
    match c
    case InString(t) => Words(t)
    case InShown(t) => Words(t)
    case InList(ps) =>
      var parts := PartsOf(ps);
      if |parts| == 1 && parts[0].TextPart? then Words(parts[0].text)
      else if parts == [] then Words("")
      else PartList(parts)
  }

  predicate IsCall(i: Item) { i.Item? && i.itemType == "function_call" }

  predicate IsAnswer(i: Item) { i.Item? && i.itemType == "function_call_output" }

  predicate IsSaid(i: Item) {
    i.Item? && !IsCall(i) && !IsAnswer(i) && i.role in {"user", "assistant", "system", "developer"}
  }

  function CallOf(i: Item): Call
    requires IsCall(i)
  {
    Call(i.callId, i.name, i.arguments)
  }

  function SaidOf(i: Item): Message
    requires IsSaid(i)
  {
    Said(if i.role == "developer" then "system" else i.role, ConvertContent(i.content))
  }

  // ---------------------------------------------------------------- what the input says

  /** One recognised item: a single call, or a message of its own. */
  datatype Atom = CallAtom(call: Call) | OtherAtom(message: Message)

  function ItemAtom(i: Item): seq<Atom> {
    if IsCall(i) then [CallAtom(CallOf(i))]
    else if IsAnswer(i) then [OtherAtom(Answer(i.callId, i.output))]
    else if IsSaid(i) then [OtherAtom(SaidOf(i))]
    else []
  }

  function ItemAtoms(items: seq<Item>): seq<Atom> {
    if items == [] then [] else ItemAtoms(items[..|items| - 1]) + ItemAtom(items[|items| - 1])
  }

  /** The instructions, then the recognised items in order. */
  function Atoms(instructions: string, input: Input): seq<Atom> {
    (if instructions != "" then [OtherAtom(Said("system", Words(instructions)))] else [])
    + match input
      case PlainInput(text) => [OtherAtom(Said("user", Words(text)))]
      case ItemInput(items) => ItemAtoms(items)
      case OtherInput => []
  }

  /** Atoms with each maximal run of calls put into one message. */
  function Grouped(atoms: seq<Atom>): seq<Message> {
    if atoms == [] then [] else AddAtom(Grouped(atoms[..|atoms| - 1]), atoms[|atoms| - 1])
  }

  function AddAtom(ms: seq<Message>, a: Atom): seq<Message> {
    match a
    case OtherAtom(m) => ms + [m]
    case CallAtom(c) =>
      var n := |ms| - 1;
      if ms != [] && ms[n].Calling? then ms[..n] + [ms[n].(calls := ms[n].calls + [c])] else ms + [CallsOnly([c])]
  }

  function WithPending(ms: seq<Message>, pending: seq<Call>): seq<Message> {
    if pending == [] then ms else ms + [CallsOnly(pending)]
  }

  lemma GroupSnoc(atoms: seq<Atom>, a: Atom)
    ensures Grouped(atoms + [a]) == AddAtom(Grouped(atoms), a)
  {
    assert (atoms + [a])[..|atoms|] == atoms;
  }

  predicate NoCallAtEnd(ms: seq<Message>) {
    ms == [] || !ms[|ms| - 1].Calling?
  }

  lemma GroupHead(instructions: string)
    ensures var head := Atoms(instructions, OtherInput);
            && Grouped(head) == (if instructions != "" then [Said("system", Words(instructions))] else [])
            && NoCallAtEnd(Grouped(head))
  {
    var system := OtherAtom(Said("system", Words(instructions)));
    if instructions != "" {
      GroupSnoc([], system);
      assert [] + [system] == [system];
    }
  }

  /** One item, seen from the grouped list with the pending calls put back. */
  lemma StepGrouped(atoms: seq<Atom>, ms: seq<Message>, pending: seq<Call>, item: Item)
    requires WithPending(ms, pending) == Grouped(atoms) && NoCallAtEnd(ms)
    ensures Grouped(atoms + ItemAtom(item)) ==
            if IsCall(item) then WithPending(ms, pending + [CallOf(item)])
            else if IsAnswer(item) then WithPending(ms, pending) + [Answer(item.callId, item.output)]
            else if IsSaid(item) then WithPending(ms, pending) + [SaidOf(item)]
            else WithPending(ms, pending)
  {
    hide Grouped;
    var whole := WithPending(ms, pending);
    if IsCall(item) {
      GroupSnoc(atoms, CallAtom(CallOf(item)));
      if pending != [] {
        assert whole[..|whole| - 1] == ms;
      } else {
        assert pending + [CallOf(item)] == [CallOf(item)];
      }
    } else if IsAnswer(item) {
      GroupSnoc(atoms, OtherAtom(Answer(item.callId, item.output)));
    } else if IsSaid(item) {
      GroupSnoc(atoms, OtherAtom(SaidOf(item)));
    } else {
      assert atoms + [] == atoms;
    }
  }

  /** `responses_to_openai_request`, messages only. */
  method ResponsesToOpenai(instructions: string, input: Input) returns (messages: seq<Message>)
    ensures messages == Grouped(Atoms(instructions, input))
  {
    hide Grouped, ItemAtoms;
    messages := [];
    ghost var head := Atoms(instructions, OtherInput);
    GroupHead(instructions);
    if instructions != "" {
      messages := [Said("system", Words(instructions))];
    }
    match input {
      case PlainInput(text) =>
        assert Atoms(instructions, input) == head + [OtherAtom(Said("user", Words(text)))];
        GroupSnoc(head, OtherAtom(Said("user", Words(text))));
        messages := messages + [Said("user", Words(text))];
      case OtherInput =>
      case ItemInput(items) =>
        assert Atoms(instructions, input) == head + ItemAtoms(items);
        messages := ConvertItems(items, messages, head);
    }
  }

  /** The loop over the items: consecutive calls are collected until some other recognised item
      comes, or the end. */
  method ConvertItems(items: seq<Item>, start: seq<Message>, ghost head: seq<Atom>) returns (messages: seq<Message>)
    requires start == Grouped(head) && NoCallAtEnd(start)
    ensures messages == Grouped(head + ItemAtoms(items))
  {
    hide Grouped, ItemAtom;
    messages := start;
    var pending: seq<Call> := [];
    assert head + ItemAtoms(items[..0]) == head;
    for k := 0 to |items|
      invariant WithPending(messages, pending) == Grouped(head + ItemAtoms(items[..k]))
      invariant NoCallAtEnd(messages)
    {
      var item := items[k];
      assert items[..k + 1][..k] == items[..k];
      assert head + ItemAtoms(items[..k + 1]) == head + ItemAtoms(items[..k]) + ItemAtom(item);
      StepGrouped(head + ItemAtoms(items[..k]), messages, pending, item);
      if IsCall(item) {
        pending := pending + [CallOf(item)];
      } else if IsAnswer(item) {
        if pending != [] {
          messages := messages + [CallsOnly(pending)];
          pending := [];
        }
        messages := messages + [Answer(item.callId, item.output)];
      } else if IsSaid(item) {
        if pending != [] {
          messages := messages + [CallsOnly(pending)];
          pending := [];
        }
        messages := messages + [SaidOf(item)];
      }
    }
    assert items[..|items|] == items;
    if pending != [] {
      messages := messages + [CallsOnly(pending)];
    }
  }

  // ---------------------------------------------------------------- grouping keeps everything, and is the only way

  function AtomsOfMessage(m: Message): seq<Atom> {
    match m
    case Calling(content, calls) =>
      (if content == NO_CONTENT then [] else [OtherAtom(Said("assistant", content))]) + CallAtoms(calls)
    case _ => [OtherAtom(m)]
  }

  function CallAtoms(calls: seq<Call>): seq<Atom> {
    seq(|calls|, k requires 0 <= k < |calls| => CallAtom(calls[k]))
  }

  /** The messages, with the calling messages taken apart again. */
  function Flatten(ms: seq<Message>): seq<Atom> {
    if ms == [] then [] else Flatten(ms[..|ms| - 1]) + AtomsOfMessage(ms[|ms| - 1])
  }

  /** Calling messages hold calls and nothing else, and are never adjacent: each is a maximal run. */
  predicate MaximalRuns(ms: seq<Message>) {
    (forall k | 0 <= k < |ms| :: ms[k].Calling? ==> ms[k].calls != [] && ms[k].content == NO_CONTENT)
    && (forall k | 0 <= k < |ms| - 1 :: Apart(ms, k))
  }

  predicate Apart(ms: seq<Message>, k: nat)
    requires k + 1 < |ms|
  {
    !(ms[k].Calling? && ms[k + 1].Calling?)
  }

  predicate PlainAtoms(atoms: seq<Atom>) {
    forall k | 0 <= k < |atoms| :: atoms[k].OtherAtom? ==> !atoms[k].message.Calling?
  }

  lemma FlattenSnoc(ms: seq<Message>, m: Message)
    ensures Flatten(ms + [m]) == Flatten(ms) + AtomsOfMessage(m)
  {
    assert (ms + [m])[..|ms|] == ms;
  }

  /** Translation loses nothing and keeps the order: taking the calling messages apart gives back
      the recognised items, and every calling message is a maximal run. */
  lemma {:induction false} GroupedFaithful(atoms: seq<Atom>)
    requires PlainAtoms(atoms)
    ensures Flatten(Grouped(atoms)) == atoms && MaximalRuns(Grouped(atoms))
  {
    hide MaximalRuns, AddAtom, Flatten;
    NoRuns();
    if atoms != [] {
      var init, a := atoms[..|atoms| - 1], atoms[|atoms| - 1];
      GroupedFaithful(init);
      AddFaithful(Grouped(init), a);
      assert atoms == init + [a];
    }
  }

  lemma NoRuns()
    ensures MaximalRuns([]) && Flatten([]) == []
  {
  }

  lemma AddFaithful(ms: seq<Message>, a: Atom)
    requires MaximalRuns(ms) && (a.OtherAtom? ==> !a.message.Calling?)
    ensures Flatten(AddAtom(ms, a)) == Flatten(ms) + [a] && MaximalRuns(AddAtom(ms, a))
  {
    hide Flatten;
    var more := AddAtom(ms, a);
    forall k | 0 <= k < |more| - 1 ensures Apart(more, k) {
      if k + 1 < |ms| { assert Apart(ms, k); }
    }
    match a
    case OtherAtom(m) => FlattenSnoc(ms, m);
    case CallAtom(c) =>
      var n := |ms| - 1;
      if ms != [] && ms[n].Calling? {
        assert ms == ms[..n] + [ms[n]];
        FlattenSnoc(ms[..n], ms[n]);
        FlattenSnoc(ms[..n], CallsOnly(ms[n].calls + [c]));
        assert AtomsOfMessage(CallsOnly(ms[n].calls + [c])) == AtomsOfMessage(ms[n]) + [a];
      } else {
        FlattenSnoc(ms, CallsOnly([c]));
        assert AtomsOfMessage(CallsOnly([c])) == [a];
      }
  }

  /** There is no other message list with maximal runs that says the same. */
  lemma {:induction false} GroupingUnique(ms: seq<Message>)
    requires MaximalRuns(ms)
    ensures Grouped(Flatten(ms)) == ms
  {
    hide Grouped, AtomsOfMessage, AddAtom;
    if ms == [] {
      NothingGrouped();
    } else {
      var n := |ms| - 1;
      var init, m := ms[..n], ms[n];
      assert ms == init + [m];
      assert MaximalRuns(init) by {
        forall k | 0 <= k < |init| - 1 ensures Apart(init, k) { assert Apart(ms, k); }
      }
      GroupingUnique(init);
      AtomsAre(m);
      if m.Calling? {
        if n > 0 { assert Apart(ms, n - 1); }
        GroupCalls(Flatten(init), init, m.calls);
      } else {
        GroupSnoc(Flatten(init), OtherAtom(m));
        AddOther(init, m);
      }
    }
  }

  lemma NothingGrouped()
    ensures Grouped([]) == []
  {
  }

  lemma AddOther(ms: seq<Message>, m: Message)
    ensures AddAtom(ms, OtherAtom(m)) == ms + [m]
  {
  }

  lemma AtomsAre(m: Message)
    ensures !m.Calling? ==> AtomsOfMessage(m) == [OtherAtom(m)]
    ensures m.Calling? && m.content == NO_CONTENT ==> m == CallsOnly(m.calls) && AtomsOfMessage(m) == CallAtoms(m.calls)
  {
  }

  lemma {:induction false} GroupCalls(atoms: seq<Atom>, ms: seq<Message>, calls: seq<Call>)
    requires Grouped(atoms) == ms && NoCallAtEnd(ms) && calls != []
    ensures Grouped(atoms + CallAtoms(calls)) == ms + [CallsOnly(calls)]
  {
    hide Grouped;
    var init, c := calls[..|calls| - 1], calls[|calls| - 1];
    assert atoms + CallAtoms(calls) == (atoms + CallAtoms(init)) + [CallAtom(c)];
    GroupSnoc(atoms + CallAtoms(init), CallAtom(c));
    assert calls == init + [c];
    if init == [] {
      assert atoms + CallAtoms(init) == atoms && calls == [c];
    } else {
      GroupCalls(atoms, ms, init);
      assert (ms + [CallsOnly(init)])[..|ms|] == ms;
    }
  }

  lemma {:induction false} ItemAtomsPlain(items: seq<Item>)
    ensures PlainAtoms(ItemAtoms(items))
  {
    if items != [] { ItemAtomsPlain(items[..|items| - 1]); }
  }

  lemma AtomsPlain(instructions: string, input: Input)
    ensures PlainAtoms(Atoms(instructions, input))
  {
    if input.ItemInput? { ItemAtomsPlain(input.items); }
  }

  // ---------------------------------------------------------------- second stage: Anthropic parameters

  datatype Block =
    | TextBlock(text: string)
    | ImageBlock(url: string)
    | ToolUse(call: Call)
    | ToolResult(callId: string, output: string)

  datatype Body = BodyText(text: string) | BodyBlocks(blocks: seq<Block>)

  datatype AnthropicMessage = AnthropicMessage(role: string, body: Body)

  function TextBlocks(ps: seq<Part>): seq<Block> {
    if ps == [] then []
    else TextBlocks(ps[..|ps| - 1]) + if ps[|ps| - 1].TextPart? then [TextBlock(ps[|ps| - 1].text)] else []
  }

  function UserBlocks(ps: seq<Part>): seq<Block> {
    if ps == [] then []
    else
      UserBlocks(ps[..|ps| - 1])
      + match ps[|ps| - 1] case TextPart(t) => [TextBlock(t)] case ImagePart(u) => [ImageBlock(u)]
  }

  function SystemTexts(c: Content): seq<string> {
    match c
    case Words(t) => [t]
    case PartList(ps) => PartTexts(ps)
  }

  function PartTexts(ps: seq<Part>): seq<string> {
    if ps == [] then []
    else PartTexts(ps[..|ps| - 1]) + if ps[|ps| - 1].TextPart? then [ps[|ps| - 1].text] else []
  }

  function AssistantBlocks(c: Content): seq<Block> {
    match c
    case Words(t) => if t != "" then [TextBlock(t)] else []
    case PartList(ps) => TextBlocks(ps)
  }

  function BlocksOrEmpty(blocks: seq<Block>): Body {
    if blocks == [] then BodyText("") else BodyBlocks(blocks)
  }

  function ToolUses(calls: seq<Call>): seq<Block> {
    seq(|calls|, k requires 0 <= k < |calls| => ToolUse(calls[k]))
  }

  function UserBody(c: Content): Body {
    match c
    case Words(t) => BodyText(t)
    case PartList(ps) => BodyBlocks(UserBlocks(ps))
  }

  /** What one message adds: system texts, and at most one Anthropic message. */
  function ConvertMessage(m: Message): (seq<string>, seq<AnthropicMessage>) {
    match m
    case Answer(id, output) => ([], [AnthropicMessage("user", BodyBlocks([ToolResult(id, output)]))])
    case Calling(content, calls) =>
      ([], [AnthropicMessage("assistant", BlocksOrEmpty(AssistantBlocks(content) + ToolUses(calls)))])
    case Said(role, content) =>
      if role == "system" then (SystemTexts(content), [])
      else if role == "assistant" then ([], [AnthropicMessage("assistant", BlocksOrEmpty(AssistantBlocks(content)))])
      else ([], [AnthropicMessage("user", UserBody(content))])
  }

  function ConvertMessages(ms: seq<Message>): (seq<string>, seq<AnthropicMessage>) {
    if ms == [] then ([], [])
    else
      var (ss, as_) := ConvertMessages(ms[..|ms| - 1]);
      var (s, a) := ConvertMessage(ms[|ms| - 1]);
      (ss + s, as_ + a)
  }

  /** `_openai_to_anthropic_params`, messages and system texts only. */
  method OpenaiToAnthropic(ms: seq<Message>) returns (systemParts: seq<string>, messages: seq<AnthropicMessage>)
    ensures (systemParts, messages) == ConvertMessages(ms)
  {
    hide TextBlocks, UserBlocks, PartTexts;
    systemParts, messages := [], [];
    for k := 0 to |ms|
      invariant (systemParts, messages) == ConvertMessages(ms[..k])
    {
      assert ms[..k + 1][..k] == ms[..k] && systemParts + [] == systemParts && messages + [] == messages;
      match ms[k] {
        case Answer(id, output) =>
          messages := messages + [AnthropicMessage("user", BodyBlocks([ToolResult(id, output)]))];
        case Calling(content, calls) =>
          var blocks := AssistantBlocks(content);
          for j := 0 to |calls|
            invariant blocks == AssistantBlocks(content) + ToolUses(calls)[..j]
          {
            blocks := blocks + [ToolUse(calls[j])];
          }
          assert ToolUses(calls)[..|calls|] == ToolUses(calls);
          messages := messages + [AnthropicMessage("assistant", BlocksOrEmpty(blocks))];
        case Said(role, content) =>
          if role == "system" {
            systemParts := systemParts + SystemTexts(content);
          } else if role == "assistant" {
            messages := messages + [AnthropicMessage("assistant", BlocksOrEmpty(AssistantBlocks(content)))];
          } else {
            messages := messages + [AnthropicMessage("user", UserBody(content))];
          }
      }
    }
    assert ms[..|ms|] == ms;
  }

  // ---------------------------------------------------------------- the two stages keep order and content

  /** A block together with the role it is sent under. */
  datatype Sent = Sent(role: string, block: Block)

  function BodyOf(b: Body): seq<Block> {
    match b
    case BodyText(t) => if t == "" then [] else [TextBlock(t)]
    case BodyBlocks(bs) => bs
  }

  function Tag(role: string, bs: seq<Block>): seq<Sent> {
    seq(|bs|, k requires 0 <= k < |bs| => Sent(role, bs[k]))
  }

  /** Everything the Anthropic messages send, block by block. */
  function SentBy(ms: seq<AnthropicMessage>): seq<Sent> {
    if ms == [] then [] else SentBy(ms[..|ms| - 1]) + Tag(ms[|ms| - 1].role, BodyOf(ms[|ms| - 1].body))
  }

  /** What the second stage makes of one recognised item, on its own. */
  function Says(a: Atom): seq<Sent> {
    match a
    case CallAtom(c) => [Sent("assistant", ToolUse(c))]
    case OtherAtom(Answer(id, output)) => [Sent("user", ToolResult(id, output))]
    case OtherAtom(Said(role, c)) =>
      if role == "system" then []
      else if role == "assistant" then Tag("assistant", AssistantBlocks(c))
      else Tag("user", BodyOf(UserBody(c)))
    case OtherAtom(Calling(_, _)) => []
  }

  function Instructs(a: Atom): seq<string> {
    match a
    case OtherAtom(Said(role, c)) => if role == "system" then SystemTexts(c) else []
    case _ => []
  }

  function AllSaid(atoms: seq<Atom>): seq<Sent> {
    if atoms == [] then [] else AllSaid(atoms[..|atoms| - 1]) + Says(atoms[|atoms| - 1])
  }

  function AllInstructed(atoms: seq<Atom>): seq<string> {
    if atoms == [] then [] else AllInstructed(atoms[..|atoms| - 1]) + Instructs(atoms[|atoms| - 1])
  }

  lemma {:induction false} AllAppend(xs: seq<Atom>, ys: seq<Atom>)
    ensures AllSaid(xs + ys) == AllSaid(xs) + AllSaid(ys)
    ensures AllInstructed(xs + ys) == AllInstructed(xs) + AllInstructed(ys)
  {
    hide Says, Instructs;
    if ys == [] {
      assert xs + ys == xs;
    } else {
      assert (xs + ys)[..|xs + ys| - 1] == xs + ys[..|ys| - 1];
      AllAppend(xs, ys[..|ys| - 1]);
    }
  }

  lemma {:induction false} CallsSaid(calls: seq<Call>)
    ensures AllSaid(CallAtoms(calls)) == Tag("assistant", ToolUses(calls))
    ensures AllInstructed(CallAtoms(calls)) == []
  {
    if calls != [] {
      var init := calls[..|calls| - 1];
      assert CallAtoms(calls)[..|calls| - 1] == CallAtoms(init);
      CallsSaid(init);
      assert ToolUses(calls) == ToolUses(init) + [ToolUse(calls[|calls| - 1])];
    }
  }

  lemma TagAppend(role: string, xs: seq<Block>, ys: seq<Block>)
    ensures Tag(role, xs + ys) == Tag(role, xs) + Tag(role, ys)
  {
  }

  lemma NoContent()
    ensures AssistantBlocks(NO_CONTENT) == [] && Tag("assistant", []) == []
  {
  }

  /** An assistant message says its content, then its calls. */
  lemma CallingSaid(content: Content, calls: seq<Call>)
    ensures AllSaid(AtomsOfMessage(Calling(content, calls)))
            == Tag("assistant", AssistantBlocks(content) + ToolUses(calls))
    ensures AllInstructed(AtomsOfMessage(Calling(content, calls))) == []
  {
    hide TextBlocks, AllSaid, AllInstructed, Tag, AssistantBlocks, CallAtoms, ToolUses;
    var said := if content == NO_CONTENT then [] else [OtherAtom(Said("assistant", content))];
    AllAppend(said, CallAtoms(calls));
    CallsSaid(calls);
    TagAppend("assistant", AssistantBlocks(content), ToolUses(calls));
    if content == NO_CONTENT { NothingSaid(); NoContent(); } else { OneSaid(OtherAtom(Said("assistant", content))); }
  }

  lemma MessageSaid(m: Message)
    ensures var (s, a) := ConvertMessage(m);
            s == AllInstructed(AtomsOfMessage(m)) && SentBy(a) == AllSaid(AtomsOfMessage(m))
  {
    hide TextBlocks, UserBlocks, PartTexts, AllSaid, AllInstructed, SentBy, ToolUses, CallAtoms;
    SentByOne(ConvertMessage(m).1);
    match m
    case Calling(content, calls) => CallingSaid(content, calls);
    case _ => OneSaid(OtherAtom(m));
  }

  lemma SentByOne(ms: seq<AnthropicMessage>)
    requires |ms| <= 1
    ensures SentBy(ms) == if ms == [] then [] else Tag(ms[0].role, BodyOf(ms[0].body))
  {
  }

  lemma OneSaid(a: Atom)
    ensures AllSaid([a]) == Says(a) && AllInstructed([a]) == Instructs(a)
  {
    assert [a][..0] == [];
  }

  lemma {:induction false} MessagesSaid(ms: seq<Message>)
    ensures ConvertMessages(ms).0 == AllInstructed(Flatten(ms))
    ensures SentBy(ConvertMessages(ms).1) == AllSaid(Flatten(ms))
  {
    hide ConvertMessage, AtomsOfMessage, AllSaid, AllInstructed;
    if ms == [] {
      AllAppend([], []);
      assert AllSaid([]) == [] && AllInstructed([]) == [] by { NothingSaid(); }
    } else {
      var init, m := ms[..|ms| - 1], ms[|ms| - 1];
      MessagesSaid(init);
      MessageSaid(m);
      AllAppend(Flatten(init), AtomsOfMessage(m));
      SentAppend(ConvertMessages(init).1, ConvertMessage(m).1);
    }
  }

  lemma NothingSaid()
    ensures AllSaid([]) == [] && AllInstructed([]) == []
  {
  }

  lemma {:induction false} SentAppend(xs: seq<AnthropicMessage>, ys: seq<AnthropicMessage>)
    ensures SentBy(xs + ys) == SentBy(xs) + SentBy(ys)
  {
    hide Tag, BodyOf;
    if ys == [] {
      assert xs + ys == xs;
    } else {
      assert (xs + ys)[..|xs + ys| - 1] == xs + ys[..|ys| - 1];
      SentAppend(xs, ys[..|ys| - 1]);
    }
  }

  /** Through both stages, the blocks sent to Anthropic are those that the second stage makes of each
      recognised item on its own, in their order and under their roles, and the system texts are
      those of the instructions and system items, in their order. */
  lemma TranslationKeepsOrder(instructions: string, input: Input)
    ensures var (system, messages) := ConvertMessages(Grouped(Atoms(instructions, input)));
            && SentBy(messages) == AllSaid(Atoms(instructions, input))
            && system == AllInstructed(Atoms(instructions, input))
  {
    hide ConvertMessages, SentBy, AllSaid, AllInstructed, Grouped;
    AtomsPlain(instructions, input);
    GroupedFaithful(Atoms(instructions, input));
    MessagesSaid(Grouped(Atoms(instructions, input)));
  }
}
