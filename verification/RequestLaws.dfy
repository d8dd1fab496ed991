/**
 What reaches Anthropic of what the input items say, judged by the items alone: everything under
 its role and in order, but for images in items that are not the user's.
 */
module RequestLaws {
  import opened RequestConvert

  // ---------------------------------------------------------------- what the input says

  /** An empty text says nothing. */
  function TextSays(t: string): seq<Block> {
    if t == "" then [] else [TextBlock(t)]
  }

  function PartSays(p: InPart): seq<Block> {
    match p
    case InText(t) => TextSays(t)
    case InImage(u) => [ImageBlock(u)]
    case InFile(u) => if u != "" then [ImageBlock(u)] else []
    case InOther => []
  }

  function PartsSay(ps: seq<InPart>): seq<Block> {
    if ps == [] then [] else PartsSay(ps[..|ps| - 1]) + PartSays(ps[|ps| - 1])
  }

  function ContentSays(c: InContent): seq<Block> {
    match c
    case InString(t) => TextSays(t)
    case InShown(t) => TextSays(t)
    case InList(ps) => PartsSay(ps)
  }

  /** A call is the assistant's, an answer the user's; developers count as system. */
  function ItemSays(i: Item): seq<Sent> {
    if i.NotAnObject? then []
    else
      match i.itemType
      case "function_call" =>
        [Sent("assistant", ToolUse(Call(id := i.callId, name := i.name, arguments := i.arguments)))]
      case "function_call_output" => [Sent("user", ToolResult(callId := i.callId, output := i.output))]
      case _ =>
        if Speaks(i) then Tag(if i.role == "developer" then "system" else i.role, ContentSays(i.content)) else []
  }

  predicate Speaks(i: Item) {
    && i.Item? && i.itemType !in {"function_call", "function_call_output"}
    && i.role in {"user", "assistant", "system", "developer"}
  }

  function ItemsSay(items: seq<Item>): seq<Sent> {
    if items == [] then [] else ItemsSay(items[..|items| - 1]) + ItemSays(items[|items| - 1])
  }

  function InputSays(instructions: string, input: Input): seq<Sent> {
    Tag("system", TextSays(instructions))
    + match input
      case PlainInput(text) => Tag("user", TextSays(text))
      case ItemInput(items) => ItemsSay(items)
      case OtherInput => []
  }

  // ---------------------------------------------------------------- what a list of messages says

  function PartHolds(p: Part): seq<Block> {
    match p
    case TextPart(t) => TextSays(t)
    case ImagePart(u) => [ImageBlock(u)]
  }

  function PartsHold(ps: seq<Part>): seq<Block> {
    if ps == [] then [] else PartsHold(ps[..|ps| - 1]) + PartHolds(ps[|ps| - 1])
  }

  function Holds(c: Content): seq<Block> {
    match c
    case Words(t) => TextSays(t)
    case PartList(ps) => PartsHold(ps)
  }

  function MessageHolds(m: Message): seq<Sent> {
    match m
    case Answer(id, output) => [Sent("user", ToolResult(id, output))]
    case Calling(content, calls) => Tag("assistant", Holds(content) + ToolUses(calls))
    case Said(role, content) => Tag(if role in {"system", "assistant"} then role else "user", Holds(content))
  }

  function MessagesHold(ms: seq<Message>): seq<Sent> {
    if ms == [] then [] else MessagesHold(ms[..|ms| - 1]) + MessageHolds(ms[|ms| - 1])
  }

  function AtomHolds(a: Atom): seq<Sent> {
    match a
    case CallAtom(c) => [Sent("assistant", ToolUse(c))]
    case OtherAtom(m) => MessageHolds(m)
  }

  function AtomsHold(atoms: seq<Atom>): seq<Sent> {
    if atoms == [] then [] else AtomsHold(atoms[..|atoms| - 1]) + AtomHolds(atoms[|atoms| - 1])
  }

  // ---------------------------------------------------------------- filtering

  function Filter(ss: seq<Sent>, keep: Sent -> bool): seq<Sent> {
    if ss == [] then []
    else Filter(ss[..|ss| - 1], keep) + if keep(ss[|ss| - 1]) then [ss[|ss| - 1]] else []
  }

  lemma {:induction false} FilterAppend(xs: seq<Sent>, ys: seq<Sent>, keep: Sent -> bool)
    ensures Filter(xs + ys, keep) == Filter(xs, keep) + Filter(ys, keep)
  {
    if ys == [] {
      assert xs + ys == xs;
    } else {
      assert (xs + ys)[..|xs + ys| - 1] == xs + ys[..|ys| - 1];
      FilterAppend(xs, ys[..|ys| - 1], keep);
    }
  }

  lemma FilterOne(s: Sent, keep: Sent -> bool)
    ensures Filter([s], keep) == if keep(s) then [s] else []
    ensures Filter([], keep) == []
  {
    assert [s][..0] == [];
  }

  lemma {:induction false} FilterAll(ss: seq<Sent>, keep: Sent -> bool, all: bool)
    requires forall s <- ss :: keep(s) == all
    ensures Filter(ss, keep) == if all then ss else []
  {
    if ss != [] {
      assert ss[|ss| - 1] in ss && forall s <- ss[..|ss| - 1] :: s in ss;
      FilterAll(ss[..|ss| - 1], keep, all);
    }
  }

  lemma SameEnds(xs: seq<Sent>, ys: seq<Sent>, s: Sent)
    ensures xs + [s] == ys + [s] <==> xs == ys
  {
    assert (xs + [s])[..|xs|] == xs && (ys + [s])[..|ys|] == ys;
  }

  lemma {:induction false} FilterShorter(ss: seq<Sent>, keep: Sent -> bool, more: Sent -> bool)
    requires forall s: Sent :: keep(s) ==> more(s)
    ensures |Filter(ss, keep)| <= |Filter(ss, more)|
    ensures Filter(ss, keep) == Filter(ss, more) <==> forall s <- ss :: more(s) ==> keep(s)
  {
    if ss != [] {
      var init, last := ss[..|ss| - 1], ss[|ss| - 1];
      FilterShorter(init, keep, more);
      assert forall s :: s in ss <==> s in init || s == last;
      var xs, ys := Filter(init, keep), Filter(init, more);
      if keep(last) {
        assert Filter(ss, keep) == xs + [last] && Filter(ss, more) == ys + [last];
        SameEnds(xs, ys, last);
      } else if more(last) {
        assert Filter(ss, keep) == xs + [] == xs && Filter(ss, more) == ys + [last];
      } else {
        assert Filter(ss, keep) == xs + [] == xs && Filter(ss, more) == ys + [] == ys;
      }
    }
  }


  predicate IsAudible(s: Sent) { s.block != TextBlock("") }

  predicate IsSystem(s: Sent) { s.role == "system" }

  predicate IsSpoken(s: Sent) { s.role != "system" }

  /** Images are passed on for the user only. */
  predicate IsPassedOn(s: Sent) { s.role == "user" || !s.block.ImageBlock? }

  predicate Arrives(s: Sent) { IsSpoken(s) && IsPassedOn(s) }

  predicate Instructed(s: Sent) { IsSystem(s) && IsPassedOn(s) }

  /** The system texts, as texts sent under that role. */
  function SystemSent(texts: seq<string>): seq<Sent> {
    seq(|texts|, k requires 0 <= k < |texts| => Sent("system", TextBlock(texts[k])))
  }

  lemma SystemAppend(xs: seq<string>, ys: seq<string>)
    ensures SystemSent(xs + ys) == SystemSent(xs) + SystemSent(ys)
  {
  }

  // ---------------------------------------------------------------- the first stage says the same

  lemma {:induction false} PartsHeld(ps: seq<InPart>)
    ensures PartsHold(PartsOf(ps)) == PartsSay(ps)
  {
    if ps != [] {
      var init, p := ps[..|ps| - 1], ps[|ps| - 1];
      PartsHeld(init);
      var parts := PartsOf(init);
      match p
      case InText(t) => assert (parts + [TextPart(t)])[..|parts|] == parts;
      case InImage(u) => assert (parts + [ImagePart(u)])[..|parts|] == parts;
      case InFile(u) =>
        assert (parts + [ImagePart(u)])[..|parts|] == parts;
        assert parts + [] == parts;
      case InOther => assert parts + [] == parts;
    }
  }

  lemma ContentHeld(c: InContent)
    ensures Holds(ConvertContent(c)) == ContentSays(c)
  {
    if c.InList? {
      PartsHeld(c.parts);
      var parts := PartsOf(c.parts);
      if |parts| == 1 { assert parts[..0] == []; }
    }
  }

  lemma AtomsOne(a: Atom)
    ensures AtomsHold([a]) == AtomHolds(a)
  {
    assert [a][..0] == [];
  }

  lemma {:induction false} AtomsAppend(xs: seq<Atom>, ys: seq<Atom>)
    ensures AtomsHold(xs + ys) == AtomsHold(xs) + AtomsHold(ys)
  {
    hide AtomHolds;
    if ys == [] {
      assert xs + ys == xs;
    } else {
      assert (xs + ys)[..|xs + ys| - 1] == xs + ys[..|ys| - 1];
      AtomsAppend(xs, ys[..|ys| - 1]);
    }
  }

  lemma ItemHeld(i: Item)
    ensures AtomsHold(ItemAtom(i)) == ItemSays(i)
  {
    hide PartsHold, PartsSay, ConvertContent;
    if IsCall(i) {
      AtomsOne(CallAtom(CallOf(i)));
    } else if IsAnswer(i) {
      AtomsOne(OtherAtom(Answer(i.callId, i.output)));
    } else if IsSaid(i) {
      AtomsOne(OtherAtom(SaidOf(i)));
      ContentHeld(i.content);
    }
  }

  lemma {:induction false} ItemsHeld(items: seq<Item>)
    ensures AtomsHold(ItemAtoms(items)) == ItemsSay(items)
  {
    hide AtomsHold, ItemAtom, ItemSays;
    if items == [] {
      NoAtoms();
    } else {
      ItemsHeld(items[..|items| - 1]);
      ItemHeld(items[|items| - 1]);
      AtomsAppend(ItemAtoms(items[..|items| - 1]), ItemAtom(items[|items| - 1]));
    }
  }

  lemma NoAtoms()
    ensures AtomsHold([]) == []
  {
  }

  lemma InputHeld(instructions: string, input: Input)
    ensures AtomsHold(Atoms(instructions, input)) == InputSays(instructions, input)
  {
    hide AtomsHold, AtomHolds, ItemsSay, ItemAtoms;
    NoAtoms();
    var system := Said("system", Words(instructions));
    var head := if instructions != "" then [OtherAtom(system)] else [];
    AtomsOne(OtherAtom(system));
    TextHeld("system", instructions);
    assert AtomsHold(head) == Tag("system", TextSays(instructions));
    match input
    case OtherInput => assert head + [] == head;
    case ItemInput(items) =>
      ItemsHeld(items);
      AtomsAppend(head, ItemAtoms(items));
    case PlainInput(text) =>
      AtomsOne(OtherAtom(Said("user", Words(text))));
      TextHeld("user", text);
      AtomsAppend(head, [OtherAtom(Said("user", Words(text)))]);
  }

  lemma TextHeld(role: string, t: string)
    requires role in {"system", "user"}
    ensures AtomHolds(OtherAtom(Said(role, Words(t)))) == Tag(role, TextSays(t))
    ensures Tag(role, []) == []
  {
  }

  // ---------------------------------------------------------------- what the second stage passes on

  lemma {:induction false} UserHeard(ps: seq<Part>)
    ensures Filter(Tag("user", UserBlocks(ps)), IsAudible) == Tag("user", PartsHold(ps))
  {
    hide Filter;
    if ps == [] {
      NothingHeard();
    } else {
      var init, p := ps[..|ps| - 1], ps[|ps| - 1];
      var b := match p case TextPart(t) => TextBlock(t) case ImagePart(u) => ImageBlock(u);
      UserHeard(init);
      TagAppend("user", UserBlocks(init), [b]);
      TagAppend("user", PartsHold(init), PartHolds(p));
      FilterAppend(Tag("user", UserBlocks(init)), Tag("user", [b]), IsAudible);
      FilterOne(Sent("user", b), IsAudible);
      assert Tag("user", [b]) == [Sent("user", b)];
    }
  }

  lemma NothingHeard()
    ensures forall keep :: Filter([], keep) == []
    ensures forall role :: Tag(role, []) == []
    ensures SystemSent([]) == []
  {
  }

  lemma {:induction false} AssistantHeard(ps: seq<Part>)
    ensures Filter(Tag("assistant", TextBlocks(ps)), IsAudible) == Filter(Tag("assistant", PartsHold(ps)), Arrives)
  {
    hide Filter;
    NothingHeard();
    if ps != [] {
      var init, p := ps[..|ps| - 1], ps[|ps| - 1];
      AssistantHeard(init);
      TagAppend("assistant", PartsHold(init), PartHolds(p));
      FilterAppend(Tag("assistant", PartsHold(init)), Tag("assistant", PartHolds(p)), Arrives);
      match p
      case ImagePart(u) =>
        FilterOne(Sent("assistant", ImageBlock(u)), Arrives);
        assert Tag("assistant", PartHolds(p)) == [Sent("assistant", ImageBlock(u))];
        assert TextBlocks(init) + [] == TextBlocks(init);
      case TextPart(t) =>
        var s := Sent("assistant", TextBlock(t));
        FilterOne(s, Arrives);
        FilterOne(s, IsAudible);
        assert Tag("assistant", [TextBlock(t)]) == [s];
        TagAppend("assistant", TextBlocks(init), [TextBlock(t)]);
        FilterAppend(Tag("assistant", TextBlocks(init)), [s], IsAudible);
    }
  }

  lemma {:induction false} SystemHeard(ps: seq<Part>)
    ensures Filter(SystemSent(PartTexts(ps)), IsAudible) == Filter(Tag("system", PartsHold(ps)), Instructed)
  {
    hide Filter;
    NothingHeard();
    if ps != [] {
      var init, p := ps[..|ps| - 1], ps[|ps| - 1];
      SystemHeard(init);
      TagAppend("system", PartsHold(init), PartHolds(p));
      FilterAppend(Tag("system", PartsHold(init)), Tag("system", PartHolds(p)), Instructed);
      match p
      case ImagePart(u) =>
        FilterOne(Sent("system", ImageBlock(u)), Instructed);
        assert Tag("system", PartHolds(p)) == [Sent("system", ImageBlock(u))];
        assert PartTexts(init) + [] == PartTexts(init);
      case TextPart(t) =>
        var s := Sent("system", TextBlock(t));
        FilterOne(s, Instructed);
        FilterOne(s, IsAudible);
        assert Tag("system", [TextBlock(t)]) == [s] && SystemSent([t]) == [s];
        SystemAppend(PartTexts(init), [t]);
        FilterAppend(SystemSent(PartTexts(init)), [s], IsAudible);
    }
  }

  /** One text, under any role. */
  lemma OneText(role: string, t: string)
    ensures Filter(Tag(role, [TextBlock(t)]), IsAudible) == Tag(role, TextSays(t))
    ensures Filter(SystemSent([t]), IsAudible) == Tag("system", TextSays(t))
    ensures Filter(Tag(role, TextSays(t)), Arrives) == if role != "system" then Tag(role, TextSays(t)) else []
    ensures Filter(Tag(role, TextSays(t)), Instructed) == if role == "system" then Tag(role, TextSays(t)) else []
    ensures Filter(Tag(role, TextSays(t)), IsAudible) == Tag(role, TextSays(t))
  {
    hide Filter;
    NothingHeard();
    var s := Sent(role, TextBlock(t));
    assert Tag(role, [TextBlock(t)]) == [s] && SystemSent([t]) == [Sent("system", TextBlock(t))];
    assert Tag("system", [TextBlock(t)]) == [Sent("system", TextBlock(t))];
    FilterOne(s, IsAudible);
    FilterOne(Sent("system", TextBlock(t)), IsAudible);
    FilterOne(s, Arrives);
    FilterOne(s, Instructed);
  }

  lemma TagRole(role: string, bs: seq<Block>)
    ensures role != "system" ==> Filter(Tag(role, bs), Instructed) == []
    ensures role == "system" ==> Filter(Tag(role, bs), Arrives) == []
    ensures role == "user" ==> Filter(Tag(role, bs), Arrives) == Tag(role, bs)
  {
    if role != "system" {
      FilterAll(Tag(role, bs), Instructed, false);
    } else {
      FilterAll(Tag(role, bs), Arrives, false);
    }
    if role == "user" { FilterAll(Tag(role, bs), Arrives, true); }
  }

  /** What is sent and instructed for one atom: all it says that is passed on. */
  lemma AtomArrives(a: Atom)
    requires a.OtherAtom? ==> !a.message.Calling?
    ensures Filter(Says(a), IsAudible) == Filter(AtomHolds(a), Arrives)
    ensures Filter(SystemSent(Instructs(a)), IsAudible) == Filter(AtomHolds(a), Instructed)
  {
    hide Filter, Tag, SystemSent, UserBlocks, TextBlocks, PartTexts, PartsHold, TextSays;
    NothingHeard();
    match a
    case CallAtom(c) => Simple(Sent("assistant", ToolUse(c)));
    case OtherAtom(Answer(id, output)) => Simple(Sent("user", ToolResult(id, output)));
    case OtherAtom(Said(role, c)) =>
      var sender := if role in {"system", "assistant"} then role else "user";
      TagRole(sender, Holds(c));
      match c
      case Words(t) =>
        OneText(sender, t);
        SilentText(t);
      case PartList(ps) =>
        UserHeard(ps);
        AssistantHeard(ps);
        SystemHeard(ps);
  }

  lemma SilentText(t: string)
    ensures TextSays(t) == if t == "" then [] else [TextBlock(t)]
  {
  }

  lemma Simple(s: Sent)
    requires s.role != "system" && !s.block.TextBlock? && !s.block.ImageBlock?
    ensures Filter([s], IsAudible) == [s] == Filter([s], Arrives) && Filter([s], Instructed) == []
  {
    FilterOne(s, IsAudible);
    FilterOne(s, Arrives);
    FilterOne(s, Instructed);
  }

  lemma {:induction false} AtomsArrive(atoms: seq<Atom>)
    requires PlainAtoms(atoms)
    ensures Filter(AllSaid(atoms), IsAudible) == Filter(AtomsHold(atoms), Arrives)
    ensures Filter(SystemSent(AllInstructed(atoms)), IsAudible) == Filter(AtomsHold(atoms), Instructed)
  {
    hide Filter, Says, Instructs, AtomHolds;
    NothingHeard();
    if atoms != [] {
      var init, a := atoms[..|atoms| - 1], atoms[|atoms| - 1];
      AtomsArrive(init);
      AtomArrives(a);
      SystemAppend(AllInstructed(init), Instructs(a));
      FilterAppend(AllSaid(init), Says(a), IsAudible);
      FilterAppend(SystemSent(AllInstructed(init)), SystemSent(Instructs(a)), IsAudible);
      FilterAppend(AtomsHold(init), AtomHolds(a), Arrives);
      FilterAppend(AtomsHold(init), AtomHolds(a), Instructed);
    }
  }

  lemma {:induction false} CallsHeld(calls: seq<Call>)
    ensures AtomsHold(CallAtoms(calls)) == Tag("assistant", ToolUses(calls))
  {
    if calls != [] {
      var init := calls[..|calls| - 1];
      assert CallAtoms(calls)[..|calls| - 1] == CallAtoms(init);
      CallsHeld(init);
      assert ToolUses(calls) == ToolUses(init) + [ToolUse(calls[|calls| - 1])];
    }
  }

  lemma MessageHeld(m: Message)
    ensures AtomsHold(AtomsOfMessage(m)) == MessageHolds(m)
    ensures PlainAtoms(AtomsOfMessage(m))
  {
    hide AtomsHold, Tag, ToolUses, PartsHold;
    match m
    case Calling(content, calls) =>
      var said := OtherAtom(Said("assistant", content));
      var head := if content == NO_CONTENT then [] else [said];
      NoAtoms();
      NothingHeard();
      AtomsOne(said);
      CallsHeld(calls);
      AtomsAppend(head, CallAtoms(calls));
      TagAppend("assistant", Holds(content), ToolUses(calls));
    case _ => AtomsOne(OtherAtom(m));
  }

  lemma {:induction false} FlattenHeld(ms: seq<Message>)
    ensures AtomsHold(Flatten(ms)) == MessagesHold(ms)
    ensures PlainAtoms(Flatten(ms))
  {
    hide AtomsHold, AtomsOfMessage, MessageHolds;
    if ms == [] {
      NoAtoms();
    } else {
      FlattenHeld(ms[..|ms| - 1]);
      MessageHeld(ms[|ms| - 1]);
      AtomsAppend(Flatten(ms[..|ms| - 1]), AtomsOfMessage(ms[|ms| - 1]));
    }
  }

  // ---------------------------------------------------------------- the main results

  /** For any messages: what the second stage sends, empty texts aside, is what the messages say, in
      their order and under their roles, without the images of system and assistant messages; and
      the system texts are those of the system messages. */
  lemma MessagesArrive(ms: seq<Message>)
    ensures var (system, messages) := ConvertMessages(ms);
            && Filter(SentBy(messages), IsAudible) == Filter(MessagesHold(ms), Arrives)
            && Filter(SystemSent(system), IsAudible) == Filter(MessagesHold(ms), Instructed)
  {
    hide ConvertMessages, SentBy, AllSaid, AllInstructed, Filter, MessagesHold, AtomsHold, PlainAtoms;
    MessagesSaid(ms);
    FlattenHeld(ms);
    AtomsArrive(Flatten(ms));
  }

  /** Through both stages: what the input says arrives, in its order and under its roles, but for
      images in items that are not the user's. */
  lemma InputArrives(instructions: string, input: Input)
    ensures var (system, messages) := ConvertMessages(Grouped(Atoms(instructions, input)));
            var said := InputSays(instructions, input);
            && Filter(SentBy(messages), IsAudible) == Filter(said, Arrives)
            && Filter(SystemSent(system), IsAudible) == Filter(said, Instructed)
  {
    hide ConvertMessages, SentBy, AllSaid, AllInstructed, Filter, Grouped, Atoms, AtomsHold, PlainAtoms, InputSays;
    TranslationKeepsOrder(instructions, input);
    AtomsPlain(instructions, input);
    AtomsArrive(Atoms(instructions, input));
    InputHeld(instructions, input);
  }

  predicate HasImage(c: InContent) {
    c.InList? && exists p <- c.parts :: p.InImage? || (p.InFile? && p.url != "")
  }

  /** No item of the system, the developer or the assistant contains an image. */
  predicate OnlyUsersShow(input: Input) {
    input.ItemInput? ==> forall i <- input.items :: Speaks(i) && i.role != "user" ==> !HasImage(i.content)
  }

  predicate ShowsImage(bs: seq<Block>) { exists b <- bs :: b.ImageBlock? }

  lemma {:induction false} ImagesSaid(ps: seq<InPart>)
    ensures ShowsImage(PartsSay(ps)) <==> HasImage(InList(ps))
  {
    if ps != [] {
      var init, p := ps[..|ps| - 1], ps[|ps| - 1];
      assert ps == init + [p];
      ImagesSaid(init);
      if ShowsImage(PartsSay(init)) {
        var b :| b in PartsSay(init) && b.ImageBlock?;
        assert b in PartsSay(ps);
      }
      if PartSays(p) != [] { assert PartSays(p)[0] in PartsSay(ps); }
    }
  }

  lemma ItemPassedOn(i: Item)
    ensures (forall s <- ItemSays(i) :: IsPassedOn(s)) <==> (Speaks(i) && i.role != "user" ==> !HasImage(i.content))
  {
    hide PartsSay;
    if Speaks(i) {
      var bs, ss := ContentSays(i.content), ItemSays(i);
      if i.content.InList? { ImagesSaid(i.content.parts); }
      assert ShowsImage(bs) <==> HasImage(i.content);
      if b :| b in bs && b.ImageBlock? {
        var k :| 0 <= k < |bs| && bs[k] == b;
        assert ss[k] in ss;
      }
    }
  }

  lemma {:induction false} ItemsPassedOn(items: seq<Item>)
    ensures (forall s <- ItemsSay(items) :: IsPassedOn(s)) <==> OnlyUsersShow(ItemInput(items))
  {
    hide ItemSays, HasImage, Speaks, IsPassedOn;
    if items != [] {
      var init, i := items[..|items| - 1], items[|items| - 1];
      assert items == init + [i];
      ItemsPassedOn(init);
      ItemPassedOn(i);
      assert forall s :: s in ItemsSay(items) <==> s in ItemsSay(init) || s in ItemSays(i);
    }
  }

  lemma InputPassedOn(instructions: string, input: Input)
    ensures (forall s <- InputSays(instructions, input) :: IsPassedOn(s)) <==> OnlyUsersShow(input)
  {
    hide ItemsSay, HasImage, Speaks;
    var head := Tag("system", TextSays(instructions));
    assert forall s <- head :: IsPassedOn(s);
    if input.ItemInput? {
      ItemsPassedOn(input.items);
      assert forall s :: s in InputSays(instructions, input) <==> s in head || s in ItemsSay(input.items);
    }
  }

  /** Everything the input says is sent or given as a system text, in order and under its role,
      exactly when only items of the user contain images. */
  lemma NothingDroppedExactly(instructions: string, input: Input)
    ensures var (system, messages) := ConvertMessages(Grouped(Atoms(instructions, input)));
            var said := InputSays(instructions, input);
            (Filter(SentBy(messages), IsAudible) == Filter(said, IsSpoken)
             && Filter(SystemSent(system), IsAudible) == Filter(said, IsSystem))
            <==> OnlyUsersShow(input)
  {
    hide ConvertMessages, SentBy, Filter, Grouped, Atoms, InputSays, OnlyUsersShow;
    var said := InputSays(instructions, input);
    InputArrives(instructions, input);
    InputPassedOn(instructions, input);
    FilterShorter(said, Arrives, IsSpoken);
    FilterShorter(said, Instructed, IsSystem);
  }

  // ---------------------------------------------------------------- inputs that lose an image

  function ImageItem(role: string): Item {
    Item("message", role, "", "", "", "", InList([InImage("u")]))
  }

  lemma OnlyImageSaid(role: string, s: Sent)
    requires role in {"user", "assistant", "system", "developer"}
    requires s == Sent(if role == "developer" then "system" else role, ImageBlock("u"))
    ensures InputSays("", ItemInput([ImageItem(role)])) == [s]
  {
    var item := ImageItem(role);
    assert [InImage("u")][..0] == [] && [item][..0] == [];
    assert PartsSay([InImage("u")]) == [ImageBlock("u")];
    assert ItemSays(item) == [s];
    hide ItemSays, PartsSay;
    assert ItemsSay([item]) == [] + [s] == [s];
  }

  /** An image under the given role is all that is said; it arrives only under the role `user`. */
  lemma ImageDropped(role: string)
    requires role in {"user", "assistant", "system", "developer"}
    ensures var input := ItemInput([ImageItem(role)]);
            var (system, messages) := ConvertMessages(Grouped(Atoms("", input)));
            && InputSays("", input) == [Sent(if role == "developer" then "system" else role, ImageBlock("u"))]
            && Filter(SentBy(messages), IsAudible) == (if role == "user" then [Sent("user", ImageBlock("u"))] else [])
            && Filter(SystemSent(system), IsAudible) == []
  {
    hide ConvertMessages, SentBy, Grouped, Atoms, InputSays, Filter, SystemSent;
    var item, s := ImageItem(role), Sent(if role == "developer" then "system" else role, ImageBlock("u"));
    OnlyImageSaid(role, s);
    InputArrives("", ItemInput([item]));
    FilterOne(s, Arrives);
    FilterOne(s, Instructed);
  }

  // ---------------------------------------------------------------- calls and answers find each other

  /** The ids under which tool uses are sent, in order. */
  function UseIds(ss: seq<Sent>): seq<string> {
    if ss == [] then []
    else UseIds(ss[..|ss| - 1]) + match ss[|ss| - 1].block case ToolUse(c) => [c.id] case _ => []
  }

  /** The ids under which tool results are sent, in order. */
  function ResultIds(ss: seq<Sent>): seq<string> {
    if ss == [] then []
    else ResultIds(ss[..|ss| - 1]) + match ss[|ss| - 1].block case ToolResult(id, _) => [id] case _ => []
  }

  /** The call ids of the items of one type, in order. */
  function CallIds(items: seq<Item>, itemType: string): seq<string> {
    if items == [] then []
    else
      var i := items[|items| - 1];
      CallIds(items[..|items| - 1], itemType) + if i.Item? && i.itemType == itemType then [i.callId] else []
  }

  lemma {:induction false} IdsAppend(xs: seq<Sent>, ys: seq<Sent>)
    ensures UseIds(xs + ys) == UseIds(xs) + UseIds(ys) && ResultIds(xs + ys) == ResultIds(xs) + ResultIds(ys)
  {
    if ys == [] {
      assert xs + ys == xs;
    } else {
      assert (xs + ys)[..|xs + ys| - 1] == xs + ys[..|ys| - 1];
      IdsAppend(xs, ys[..|ys| - 1]);
    }
  }

  predicate IsTool(s: Sent) { s.block.ToolUse? || s.block.ToolResult? }

  /** A filter that lets tool blocks pass keeps their ids. */
  lemma {:induction false} IdsFiltered(ss: seq<Sent>, keep: Sent -> bool)
    requires forall s <- ss :: IsTool(s) ==> keep(s)
    ensures UseIds(Filter(ss, keep)) == UseIds(ss) && ResultIds(Filter(ss, keep)) == ResultIds(ss)
  {
    if ss != [] {
      var init, s := ss[..|ss| - 1], ss[|ss| - 1];
      assert s in ss && forall x <- init :: x in ss;
      IdsFiltered(init, keep);
      var kept := Filter(init, keep);
      if keep(s) {
        assert (kept + [s])[..|kept|] == kept;
      } else {
        assert kept + [] == kept;
      }
    }
  }

  lemma {:induction false} NoIds(ss: seq<Sent>)
    requires forall s <- ss :: !IsTool(s)
    ensures UseIds(ss) == [] && ResultIds(ss) == []
  {
    if ss != [] {
      assert ss[|ss| - 1] in ss && forall x <- ss[..|ss| - 1] :: x in ss;
      NoIds(ss[..|ss| - 1]);
    }
  }

  lemma {:induction false} PartsAreNoTools(ps: seq<InPart>)
    ensures forall b <- PartsSay(ps) :: !b.ToolUse? && !b.ToolResult?
  {
    if ps != [] { PartsAreNoTools(ps[..|ps| - 1]); }
  }

  lemma ItemIds(i: Item)
    ensures UseIds(ItemSays(i)) == if i.Item? && i.itemType == "function_call" then [i.callId] else []
    ensures ResultIds(ItemSays(i)) == if i.Item? && i.itemType == "function_call_output" then [i.callId] else []
    ensures forall s <- ItemSays(i) :: IsTool(s) ==> IsAudible(s) && Arrives(s)
  {
    hide PartsSay;
    var ss := ItemSays(i);
    if Speaks(i) {
      if i.content.InList? { PartsAreNoTools(i.content.parts); }
      forall s <- ss ensures !IsTool(s) {
        var k :| 0 <= k < |ss| && ss[k] == s;
        assert ContentSays(i.content)[k] in ContentSays(i.content);
      }
      NoIds(ss);
    } else if ss != [] {
      assert ss[..0] == [];
    }
  }

  lemma {:induction false} ItemsIds(items: seq<Item>)
    ensures UseIds(ItemsSay(items)) == CallIds(items, "function_call")
    ensures ResultIds(ItemsSay(items)) == CallIds(items, "function_call_output")
    ensures forall s <- ItemsSay(items) :: IsTool(s) ==> IsAudible(s) && Arrives(s)
  {
    hide ItemSays, IsTool, IsAudible, Arrives;
    if items != [] {
      ItemsIds(items[..|items| - 1]);
      ItemIds(items[|items| - 1]);
      IdsAppend(ItemsSay(items[..|items| - 1]), ItemSays(items[|items| - 1]));
    }
  }

  /** Through both stages the tool uses carry the call ids of the call items, and the tool results those
      of the answers, in order. So a tool use and a tool result have the same id exactly when the items
      they stand for have. */
  lemma CallsFindAnswers(instructions: string, items: seq<Item>)
    ensures var messages := ConvertMessages(Grouped(Atoms(instructions, ItemInput(items)))).1;
            var uses, results := UseIds(SentBy(messages)), ResultIds(SentBy(messages));
            var calls, answers := CallIds(items, "function_call"), CallIds(items, "function_call_output");
            && uses == calls && results == answers
            && (forall j, k | 0 <= j < |uses| && 0 <= k < |results| ::
                  uses[j] == results[k] <==> calls[j] == answers[k])
  {
    hide ConvertMessages, SentBy, Grouped, Atoms, Filter, ItemsSay, UseIds, ResultIds, CallIds, IsTool, IsAudible,
      Arrives, Tag;
    var input := ItemInput(items);
    var sent := SentBy(ConvertMessages(Grouped(Atoms(instructions, input))).1);
    var head := Tag("system", TextSays(instructions));
    InputArrives(instructions, input);
    ItemsIds(items);
    HeadHasNoIds(instructions);
    IdsAppend(head, ItemsSay(items));
    ToolsPass(head, ItemsSay(items));
    IdsFiltered(head + ItemsSay(items), Arrives);
    ToolsAudible(sent);
    IdsFiltered(sent, IsAudible);
    assert [] + CallIds(items, "function_call") == CallIds(items, "function_call");
    assert [] + CallIds(items, "function_call_output") == CallIds(items, "function_call_output");
  }

  lemma HeadHasNoIds(instructions: string)
    ensures var head := Tag("system", TextSays(instructions));
            && UseIds(head) == [] && ResultIds(head) == []
            && forall s <- head :: !IsTool(s)
  {
    NoIds(Tag("system", TextSays(instructions)));
  }

  lemma ToolsPass(xs: seq<Sent>, ys: seq<Sent>)
    requires (forall s <- xs :: !IsTool(s)) && (forall s <- ys :: IsTool(s) ==> IsAudible(s) && Arrives(s))
    ensures forall s <- xs + ys :: IsTool(s) ==> Arrives(s)
  {
  }

  lemma ToolsAudible(ss: seq<Sent>)
    ensures forall s <- ss :: IsTool(s) ==> IsAudible(s)
  {
  }

  // ---------------------------------------------------------------- every message is sent

  /** The role a message is sent under, if it is sent: system messages are not. */
  function SenderOf(m: Message): seq<string> {
    match m
    case Calling(_, _) => ["assistant"]
    case Answer(_, _) => ["user"]
    case Said(role, _) =>
      match role
      case "system" => []
      case "assistant" => ["assistant"]
      case _ => ["user"]
  }

  function Senders(ms: seq<Message>): seq<string> {
    if ms == [] then [] else Senders(ms[..|ms| - 1]) + SenderOf(ms[|ms| - 1])
  }

  function Roles(ms: seq<AnthropicMessage>): seq<string> {
    seq(|ms|, k requires 0 <= k < |ms| => ms[k].role)
  }

  /** An assistant message is a list of blocks, or the empty string if it has none. */
  predicate WellFormed(m: AnthropicMessage) {
    m.role == "assistant" ==> if m.body.BodyText? then m.body.text == "" else m.body.blocks != []
  }

  lemma MessageIsSent(m: Message)
    ensures Roles(ConvertMessage(m).1) == SenderOf(m)
    ensures forall a <- ConvertMessage(m).1 :: WellFormed(a)
    ensures m.Said? && m.content.Words? && SenderOf(m) == ["user"] ==>
              ConvertMessage(m).1 == [AnthropicMessage("user", BodyText(m.content.text))]
  {
    hide TextBlocks, UserBlocks, PartTexts;
  }

  /** Every message but the system's is sent as one message, in order, under its role, even if it says
      nothing, and none of the assistant's has an empty list of blocks. */
  lemma {:induction false} MessagesAreSent(ms: seq<Message>)
    ensures Roles(ConvertMessages(ms).1) == Senders(ms)
    ensures forall a <- ConvertMessages(ms).1 :: WellFormed(a)
  {
    hide ConvertMessage, WellFormed, SenderOf;
    if ms != [] {
      MessagesAreSent(ms[..|ms| - 1]);
      MessageIsSent(ms[|ms| - 1]);
      var before, more := ConvertMessages(ms[..|ms| - 1]).1, ConvertMessage(ms[|ms| - 1]).1;
      assert Roles(before + more) == Roles(before) + Roles(more);
    }
  }

  // ---------------------------------------------------------------- when content stays a string

  /** How many parts the first stage recognises. */
  function Recognised(ps: seq<InPart>): nat {
    if ps == [] then 0
    else
      Recognised(ps[..|ps| - 1])
      + match ps[|ps| - 1]
        case InText(_) => 1
        case InImage(_) => 1
        case InFile(u) => if u == "" then 0 else 1
        case InOther => 0
  }

  lemma {:induction false} PartsRecognised(ps: seq<InPart>)
    ensures |PartsOf(ps)| == Recognised(ps)
    ensures (exists p <- PartsOf(ps) :: p.ImagePart?) <==> HasImage(InList(ps))
  {
    if ps != [] {
      var init, p := ps[..|ps| - 1], ps[|ps| - 1];
      assert ps == init + [p];
      PartsRecognised(init);
      if x :| x in PartsOf(init) && x.ImagePart? { assert x in PartsOf(ps); }
      if |PartsOf(ps)| > |PartsOf(init)| { assert PartsOf(ps)[|PartsOf(ps)| - 1] in PartsOf(ps); }
    }
  }

  /** Content is passed on as a list exactly when it is one with an image or with two parts or more;
      otherwise it is a string. */
  lemma ListExactly(c: InContent)
    ensures ConvertContent(c).PartList? <==> c.InList? && (HasImage(c) || Recognised(c.parts) > 1)
  {
    hide PartsOf;
    if c.InList? {
      PartsRecognised(c.parts);
      if |PartsOf(c.parts)| == 1 { assert PartsOf(c.parts)[0] in PartsOf(c.parts); }
    }
  }
}
