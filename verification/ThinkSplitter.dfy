/**
 The incremental `<think>` splitter inside `AnthropicStreamConverter._process_text`
 (services/anthropic_convert.py), separated from the block bookkeeping: one call turns
 a fragment of text into pieces, and keeps at most six characters of lookback.
 */
module ThinkSplitter {
  import opened Wrappers
  import opened Text

  const OPEN := "<think>"
  const CLOSE := "</think>"

  datatype Mode = Idle | Thinking | Done

  datatype Piece = Plain(text: string) | OpenThink | Thought(text: string) | CloseThink

  datatype Splitter = Splitter(mode: Mode, buffer: string)

  const FRESH := Splitter(Idle, "")

  // ---------------------------------------------------------------- one call

  function Opening(before: string): seq<Piece> {
    (if Blank(before) then [] else [Plain(before)]) + [OpenThink]
  }

  function Closing(thought: string): seq<Piece> {
    (if thought == "" then [] else [Thought(thought)]) + [CloseThink]
  }

  function SplitDone(text: string): seq<Piece> {
    if text == "" then [] else [Plain(text)]
  }

  function SplitThinking(s: Splitter, text: string): (Splitter, seq<Piece>) {
    if text == "" then (s, [])
    else match Find(text, CLOSE)
      case Some(j) =>
        (s.(mode := Done), Closing(text[..j]) + SplitDone(text[j + |CLOSE|..]))
      case None => (s, [Thought(text)])
  }

  function SplitIdle(s: Splitter, text: string): (Splitter, seq<Piece>) {
    var buf := s.buffer + text;
    match Find(buf, OPEN)
    case Some(i) =>
      var (s', rest) := SplitThinking(Splitter(Thinking, ""), buf[i + |OPEN|..]);
      (s', Opening(buf[..i]) + rest)
    case None =>
      if |buf| >= 7 then (s.(buffer := buf[|buf| - 6..]), [Plain(buf[..|buf| - 6])])
      else (s.(buffer := buf), [])
  }

  /** What one call of `_process_text` does with a fragment. */
  function Split(s: Splitter, text: string): (Splitter, seq<Piece>) {
    if text == "" then (s, [])
    else match s.mode
      case Idle => SplitIdle(s, text)
      case Thinking => SplitThinking(s, text)
      case Done => (s, SplitDone(text))
  }

  // ---------------------------------------------------------------- a whole stream

  /** What a consumer of the pieces has read so far. */
  datatype Reading = Reading(before: string, began: bool, thinking: string, ended: bool, after: string)

  const NOTHING_READ := Reading("", false, "", false, "")

  function ReadPiece(r: Reading, p: Piece): Reading {
    match p
    case Plain(t) => if r.began then r.(after := r.after + t) else r.(before := r.before + t)
    case OpenThink => r.(began := true)
    case Thought(t) => r.(thinking := r.thinking + t)
    case CloseThink => r.(ended := true)
  }

  function ReadPieces(r: Reading, ps: seq<Piece>): Reading {
    if ps == [] then r else ReadPiece(ReadPieces(r, ps[..|ps| - 1]), ps[|ps| - 1])
  }

  lemma {:induction false} ReadAppend(r: Reading, xs: seq<Piece>, ys: seq<Piece>)
    ensures ReadPieces(r, xs + ys) == ReadPieces(ReadPieces(r, xs), ys)
  {
    if ys == [] {
      assert xs + ys == xs;
    } else {
      assert (xs + ys)[..|xs + ys| - 1] == xs + ys[..|ys| - 1];
      ReadAppend(r, xs, ys[..|ys| - 1]);
    }
  }

  lemma ReadOne(r: Reading, p: Piece)
    ensures ReadPieces(r, [p]) == ReadPiece(r, p)
  {
    assert [p][..0] == [];
  }

  /** All pieces produced for a stream that arrives cut into `texts`. */
  function SplitAll(texts: seq<string>): (Splitter, seq<Piece>) {
    if texts == [] then (FRESH, [])
    else
      var (s, ps) := SplitAll(texts[..|texts| - 1]);
      var (s', qs) := Split(s, texts[|texts| - 1]);
      (s', ps + qs)
  }

  function ReadingOf(texts: seq<string>): Reading {
    ReadPieces(NOTHING_READ, SplitAll(texts).1)
  }

  // ---------------------------------------------------------------- the reference

  /** Positions in Concat(texts) of the closing tags that arrive within one fragment. */
  ghost function WholeCloses(texts: seq<string>): set<nat> {
    if texts == [] then {}
    else
      var init, t := texts[..|texts| - 1], texts[|texts| - 1];
      WholeCloses(init) + ClosesIn(t, |Concat(init)|)
  }

  ghost function ClosesIn(t: string, offset: nat): set<nat> {
    set p: nat | p <= offset + |t| && CloseAt(t, offset, p)
  }

  predicate CloseAt(t: string, offset: nat, p: nat) {
    offset <= p && OccursAt(t, CLOSE, p - offset)
  }

  ghost predicate IsFirst(closes: set<nat>, from: nat, p: nat) {
    from <= p && p in closes && forall q: nat | from <= q < p :: q !in closes
  }

  /** What the splitter must have read of the text T, independently of how it works: T is cut
      at its first `<think>` and at the first of the given `</think>` after it, and only
      whitespace right before `<think>` may be missing. */
  ghost predicate FaithfulTo(T: string, closes: set<nat>, s: Splitter, r: Reading) {
    match Find(T, OPEN)
    case None =>
      && s.mode == Idle
      && |s.buffer| == (if |T| < 6 then |T| else 6)
      && r == Reading(T[..|T| - |s.buffer|], false, "", false, "")
      && s.buffer == T[|T| - |s.buffer|..]
    case Some(i) =>
      && s.buffer == ""
      && r.began
      && |r.before| <= i && r.before == T[..|r.before|] && Blank(T[|r.before|..i])
      && (match s.mode
          case Idle => false
          case Thinking =>
            && T[i + |OPEN|..] == r.thinking && !r.ended && r.after == ""
            && (forall p: nat | i + |OPEN| <= p :: p !in closes)
          case Done =>
            && T[i + |OPEN|..] == r.thinking + CLOSE + r.after && r.ended
            && IsFirst(closes, i + |OPEN|, i + |OPEN| + |r.thinking|))
  }

  ghost predicate Faithful(texts: seq<string>, s: Splitter, r: Reading) {
    FaithfulTo(Concat(texts), WholeCloses(texts), s, r)
  }

  // ---------------------------------------------------------------- proof

  lemma FindExtended(s: string, t: string, tag: string)
    requires Find(s, tag).Some?
    ensures Find(s + t, tag) == Find(s, tag)
  {
    forall i: nat | i + |tag| <= |s| ensures OccursAt(s + t, tag, i) <==> OccursAt(s, tag, i) {
      assert (s + t)[i..i + |tag|] == s[i..i + |tag|];
    }
  }

  // What one fragment does to a reading, with the pieces left out.

  function AfterThinking(s: Splitter, r: Reading, text: string): (Splitter, Reading) {
    if text == "" then (s, r)
    else match Find(text, CLOSE)
      case Some(j) =>
        (s.(mode := Done), r.(thinking := r.thinking + text[..j], ended := true, after := text[j + |CLOSE|..]))
      case None => (s, r.(thinking := r.thinking + text))
  }

  function AfterIdle(s: Splitter, r: Reading, text: string): (Splitter, Reading) {
    var buf := s.buffer + text;
    match Find(buf, OPEN)
    case Some(i) =>
      AfterThinking(Splitter(Thinking, ""),
                    r.(before := if Blank(buf[..i]) then r.before else r.before + buf[..i], began := true),
                    buf[i + |OPEN|..])
    case None =>
      if |buf| >= 7 then (s.(buffer := buf[|buf| - 6..]), r.(before := r.before + buf[..|buf| - 6]))
      else (s.(buffer := buf), r)
  }

  function After(s: Splitter, r: Reading, text: string): (Splitter, Reading) {
    if text == "" then (s, r)
    else match s.mode
      case Idle => AfterIdle(s, r, text)
      case Thinking => AfterThinking(s, r, text)
      case Done => (s, r.(after := r.after + text))
  }

  lemma ReadDone(r: Reading, text: string)
    requires r.began
    ensures ReadPieces(r, SplitDone(text)) == r.(after := r.after + text)
  {
    hide FindFrom;
    if text != "" { ReadOne(r, Plain(text)); }
  }

  lemma ReadClosing(r: Reading, thought: string)
    ensures ReadPieces(r, Closing(thought)) == r.(thinking := r.thinking + thought, ended := true)
  {
    var head := if thought == "" then [] else [Thought(thought)];
    if thought != "" { ReadOne(r, Thought(thought)); }
    ReadAppend(r, head, [CloseThink]);
    ReadOne(ReadPieces(r, head), CloseThink);
  }

  lemma ReadOpening(r: Reading, before: string)
    requires !r.began
    ensures ReadPieces(r, Opening(before))
            == r.(before := if Blank(before) then r.before else r.before + before, began := true)
  {
    var head := if Blank(before) then [] else [Plain(before)];
    if !Blank(before) { ReadOne(r, Plain(before)); }
    ReadAppend(r, head, [OpenThink]);
    ReadOne(ReadPieces(r, head), OpenThink);
  }

  lemma ReadThinking(s: Splitter, r: Reading, text: string)
    requires r.began && r.after == ""
    ensures var (s', ps) := SplitThinking(s, text); (s', ReadPieces(r, ps)) == AfterThinking(s, r, text)
  {
    hide Find, Closing, SplitDone;
    if text != "" {
      match Find(text, CLOSE)
      case None => ReadOne(r, Thought(text));
      case Some(j) =>
        ReadClosing(r, text[..j]);
        ReadDone(ReadPieces(r, Closing(text[..j])), text[j + |CLOSE|..]);
        ReadAppend(r, Closing(text[..j]), SplitDone(text[j + |CLOSE|..]));
        assert "" + text[j + |CLOSE|..] == text[j + |CLOSE|..];
    }
  }

  lemma ReadIdle(s: Splitter, r: Reading, text: string)
    requires !r.began && r.after == ""
    ensures var (s', ps) := SplitIdle(s, text); (s', ReadPieces(r, ps)) == AfterIdle(s, r, text)
  {
    hide Find, Opening, SplitThinking, AfterThinking;
    var buf := s.buffer + text;
    match Find(buf, OPEN)
    case None => if |buf| >= 7 { ReadOne(r, Plain(buf[..|buf| - 6])); }
    case Some(i) =>
      ReadOpening(r, buf[..i]);
      ReadThinking(Splitter(Thinking, ""), ReadPieces(r, Opening(buf[..i])), buf[i + |OPEN|..]);
      ReadAppend(r, Opening(buf[..i]), SplitThinking(Splitter(Thinking, ""), buf[i + |OPEN|..]).1);
  }

  lemma ThinkingStep(T: string, closes: set<nat>, t: string, s: Splitter, r: Reading)
    requires t != "" && s.mode == Thinking && FaithfulTo(T, closes, s, r)
    ensures var (s', r') := AfterThinking(s, r, t); FaithfulTo(T + t, closes + ClosesIn(t, |T|), s', r')
  {
    hide FindFrom;
    var i := Find(T, OPEN).value;
    FindExtended(T, t, OPEN);
    assert (T + t)[..|r.before|] == T[..|r.before|];
    assert (T + t)[|r.before|..i] == T[|r.before|..i];
    assert (T + t)[i + |OPEN|..] == r.thinking + t;
    match Find(t, CLOSE)
    case None => NoCloseIn(t, |T|);
    case Some(j) =>
      FirstCloseIn(t, |T|, j);
      assert r.thinking + t == (r.thinking + t[..j]) + CLOSE + t[j + |CLOSE|..];
  }

  lemma NoCloseIn(t: string, offset: nat)
    requires Find(t, CLOSE).None?
    ensures ClosesIn(t, offset) == {}
  {
    hide FindFrom;
    forall p: nat ensures p !in ClosesIn(t, offset) {}
  }

  lemma FirstCloseIn(t: string, offset: nat, j: nat)
    requires Find(t, CLOSE) == Some(j)
    ensures t == t[..j] + CLOSE + t[j + |CLOSE|..]
    ensures offset + j in ClosesIn(t, offset) && forall p <- ClosesIn(t, offset) :: offset + j <= p
  {
    hide FindFrom;
    assert CloseAt(t, offset, offset + j);
  }

  lemma DoneStep(T: string, closes: set<nat>, t: string, s: Splitter, r: Reading)
    requires s.mode == Done && FaithfulTo(T, closes, s, r)
    ensures FaithfulTo(T + t, closes + ClosesIn(t, |T|), s, r.(after := r.after + t))
  {
    hide FindFrom;
    var i := Find(T, OPEN).value;
    FindExtended(T, t, OPEN);
    assert (T + t)[..|r.before|] == T[..|r.before|];
    assert (T + t)[|r.before|..i] == T[|r.before|..i];
    assert (T + t)[i + |OPEN|..] == r.thinking + CLOSE + (r.after + t);
  }

  /** The lookback buffer is long enough: the first `<think>` of the extended text lies in
      the buffered part, although the text before it has already been emitted. */
  lemma LookbackSuffices(T: string, t: string, lo: nat)
    requires lo <= |T| && Find(T, OPEN).None? && (lo == 0 || lo + 6 == |T|)
    ensures match Find(T[lo..] + t, OPEN)
            case None => Find(T + t, OPEN).None?
            case Some(k) => Find(T + t, OPEN) == Some(lo + k) && lo + k + |OPEN| > |T|
  {
    hide FindFrom;
    var whole, buf := T + t, T[lo..] + t;
    assert buf == whole[lo..|whole|];
    forall i: nat ensures OccursAt(buf, OPEN, i) <==> OccursAt(whole, OPEN, lo + i) {
      OccursInSlice(whole, OPEN, lo, |whole|, i);
    }
    forall i: nat | i + |OPEN| <= |T| ensures !OccursAt(whole, OPEN, i) {
      assert whole[i..i + |OPEN|] == T[i..i + |OPEN|];
      assert !OccursAt(T, OPEN, i);
    }
    match Find(buf, OPEN)
    case None =>
      forall i: nat ensures !OccursAt(whole, OPEN, i) {
        if i >= lo { assert !OccursAt(buf, OPEN, i - lo); }
      }
    case Some(k) =>
      forall i: nat | i < lo + k ensures !OccursAt(whole, OPEN, i) {
        if i >= lo { assert !OccursAt(buf, OPEN, i - lo); }
      }
  }

  lemma IdleStep(T: string, closes: set<nat>, t: string, s: Splitter, r: Reading)
    requires s.mode == Idle && FaithfulTo(T, closes, s, r)
    requires forall p <- closes :: p + |CLOSE| <= |T|
    ensures var (s', r') := AfterIdle(s, r, t); FaithfulTo(T + t, closes + ClosesIn(t, |T|), s', r')
  {
    hide Find, OccursAt, ClosesIn, AfterThinking;
    var lo := |T| - |s.buffer|;
    LookbackSuffices(T, t, lo);
    match Find(s.buffer + t, OPEN)
    case None => KeepBuffering(T, s.buffer + t, t, lo, s, r);
    case Some(k) => OpenFound(T, closes, t, lo, k, s, r);
  }

  lemma StillIdle(T: string, n: nat)
    requires Find(T, OPEN).None? && n == (if |T| < 6 then |T| else 6)
    ensures var s, r := Splitter(Idle, T[|T| - n..]), Reading(T[..|T| - n], false, "", false, "");
            forall closes :: FaithfulTo(T, closes, s, r)
  {
    hide Find;
  }

  lemma KeepBuffering(T: string, buf: string, t: string, lo: nat, s: Splitter, r: Reading)
    requires lo <= |T| && (lo == 0 || lo + 6 == |T|) && |T| <= lo + 6
    requires s.mode == Idle && s.buffer == T[lo..] && buf == s.buffer + t
    requires r == Reading(T[..lo], false, "", false, "")
    requires Find(buf, OPEN).None? && Find(T + t, OPEN).None?
    ensures var (s', r') := AfterIdle(s, r, t); forall closes :: FaithfulTo(T + t, closes, s', r')
  {
    hide Find, OccursAt, AfterThinking, FaithfulTo;
    var whole := T + t;
    assert whole == T[..lo] + buf;
    if |buf| >= 7 {
      assert T[..lo] + buf[..|buf| - 6] == whole[..|whole| - 6];
      assert buf[|buf| - 6..] == whole[|whole| - 6..];
      StillIdle(whole, 6);
    } else {
      assert whole[lo..] == buf && whole[..lo] == T[..lo];
      assert |whole| >= 6 ==> |buf| == 6;
      StillIdle(whole, |buf|);
    }
  }


  lemma AfterOpening(s: Splitter, r: Reading, t: string, k: nat, before: string)
    requires Find(s.buffer + t, OPEN) == Some(k)
    requires var buf := s.buffer + t; before == if Blank(buf[..k]) then r.before else r.before + buf[..k]
    ensures AfterIdle(s, r, t)
            == AfterThinking(Splitter(Thinking, ""), r.(before := before, began := true), (s.buffer + t)[k + |OPEN|..])
  {
    hide Find, Blank, AfterThinking;
  }

  lemma OpenFound(T: string, closes: set<nat>, t: string, lo: nat, k: nat, s: Splitter, r: Reading)
    requires lo <= |T| && s.mode == Idle && s.buffer == T[lo..]
    requires r == Reading(T[..lo], false, "", false, "")
    requires forall p <- closes :: p + |CLOSE| <= |T|
    requires Find(s.buffer + t, OPEN) == Some(k)
    requires Find(T + t, OPEN) == Some(lo + k) && lo + k + |OPEN| > |T|
    ensures var (s', r') := AfterIdle(s, r, t); FaithfulTo(T + t, closes + ClosesIn(t, |T|), s', r')
  {
    hide Find, OccursAt, ClosesIn, AfterThinking, AfterIdle, FaithfulTo, Blank;
    var buf := s.buffer + t;
    var before := if Blank(buf[..k]) then r.before else r.before + buf[..k];
    AfterOpening(s, r, t, k, before);
    assert (T + t)[lo..] == buf;
    OpeningText(T + t, buf, lo, k, before);
    OpenedStep(T, closes, t, lo + k, r.(before := before, began := true));
  }

  lemma OpeningText(whole: string, buf: string, lo: nat, k: nat, before: string)
    requires lo <= |whole| && whole[lo..] == buf && k + |OPEN| <= |buf|
    requires before == if Blank(buf[..k]) then whole[..lo] else whole[..lo] + buf[..k]
    ensures |before| <= lo + k && before == whole[..|before|] && Blank(whole[|before|..lo + k])
    ensures whole[lo + k + |OPEN|..] == buf[k + |OPEN|..]
  {
    assert whole[..lo + k] == whole[..lo] + buf[..k];
    assert whole[lo..lo + k] == buf[..k];
  }

  lemma ClosesInSuffix(t: string, text: string, offset: nat, from: nat)
    requires offset <= from <= offset + |t| && text == t[from - offset..]
    ensures forall p: nat | from <= p :: p in ClosesIn(t, offset) <==> p in ClosesIn(text, from)
  {
    forall p: nat | from <= p ensures p in ClosesIn(t, offset) <==> p in ClosesIn(text, from) {
      OccursInSlice(t, CLOSE, from - offset, |t|, p - from);
      assert CloseAt(t, offset, p) <==> CloseAt(text, from, p);
    }
  }

  lemma NoCloseInNothing()
    ensures Find("", CLOSE).None?
  {
  }

  lemma StillThinking(T: string, closes: set<nat>, i: nat, r: Reading)
    requires Find(T, OPEN) == Some(i) && r.began && !r.ended && r.after == "" && r.thinking == T[i + |OPEN|..]
    requires |r.before| <= i && r.before == T[..|r.before|] && Blank(T[|r.before|..i])
    requires forall p: nat | i + |OPEN| <= p :: p !in closes
    ensures FaithfulTo(T, closes, Splitter(Thinking, ""), r)
  {
    hide Find, Blank;
  }

  lemma NowDone(T: string, closes: set<nat>, i: nat, j: nat, r: Reading)
    requires Find(T, OPEN) == Some(i) && r.began && r.ended
    requires |r.before| <= i && r.before == T[..|r.before|] && Blank(T[|r.before|..i])
    requires |r.thinking| == j && T[i + |OPEN|..] == r.thinking + CLOSE + r.after
    requires IsFirst(closes, i + |OPEN|, i + |OPEN| + j)
    ensures FaithfulTo(T, closes, Splitter(Done, ""), r)
  {
    hide Find, Blank, IsFirst;
  }

  /** The rest of the fragment in which `<think>` was completed at position i. */
  lemma OpenedStep(T: string, closes: set<nat>, t: string, i: nat, r: Reading)
    requires Find(T + t, OPEN) == Some(i) && |T| <= i + |OPEN|
    requires forall p <- closes :: p + |CLOSE| <= |T|
    requires r.began && r.thinking == "" && !r.ended && r.after == ""
    requires |r.before| <= i && r.before == (T + t)[..|r.before|] && Blank((T + t)[|r.before|..i])
    ensures var (s', r') := AfterThinking(Splitter(Thinking, ""), r, (T + t)[i + |OPEN|..]);
            FaithfulTo(T + t, closes + ClosesIn(t, |T|), s', r')
  {
    hide FindFrom, OccursAt, ClosesIn, FaithfulTo, Blank;
    var from := i + |OPEN|;
    var text := (T + t)[from..];
    ClosesInSuffix(t, text, |T|, from);
    if text == "" {
      NoCloseIn(text, from) by { NoCloseInNothing(); }
      StillThinking(T + t, closes + ClosesIn(t, |T|), i, r);
    } else {
      match Find(text, CLOSE)
      case None =>
        NoCloseIn(text, from);
        StillThinking(T + t, closes + ClosesIn(t, |T|), i, r.(thinking := r.thinking + text));
      case Some(j) =>
        FirstCloseIn(text, from, j);
        NowDone(T + t, closes + ClosesIn(t, |T|), i, j,
                r.(thinking := r.thinking + text[..j], ended := true, after := text[j + |CLOSE|..]));
    }
  }


  lemma {:induction false} WholeClosesOccur(texts: seq<string>)
    ensures forall p <- WholeCloses(texts) :: OccursAt(Concat(texts), CLOSE, p)
  {
    hide FindFrom;
    if texts != [] {
      var init, t := texts[..|texts| - 1], texts[|texts| - 1];
      var T := Concat(init);
      WholeClosesOccur(init);
      forall p: nat | p in WholeCloses(texts) ensures OccursAt(T + t, CLOSE, p) {
        if p in WholeCloses(init) {
          assert (T + t)[p..p + |CLOSE|] == T[p..p + |CLOSE|];
        } else {
          assert (T + t)[p..p + |CLOSE|] == t[p - |T|..p - |T| + |CLOSE|];
        }
      }
    }
  }

  /** Whatever the cutting, the incremental splitter reads exactly the reference split:
      nothing lost, nothing invented. */
  lemma {:induction false} SplitterIsFaithful(texts: seq<string>)
    ensures Faithful(texts, SplitAll(texts).0, ReadingOf(texts))
  {
    hide FindFrom;
    if texts != [] {
      var init, t := texts[..|texts| - 1], texts[|texts| - 1];
      var (s, ps) := SplitAll(init);
      SplitterIsFaithful(init);
      WholeClosesOccur(init);
      ReadAppend(NOTHING_READ, ps, Split(s, t).1);
      ReadStep(s, ReadingOf(init), t);
      FragmentStep(Concat(init), WholeCloses(init), t, s, ReadingOf(init));
    }
  }

  predicate ModeFits(s: Splitter, r: Reading) {
    match s.mode
    case Idle => !r.began && r.after == ""
    case Thinking => r.began && r.after == ""
    case Done => r.began
  }

  lemma ReadStep(s: Splitter, r: Reading, t: string)
    requires ModeFits(s, r)
    ensures var (s', ps) := Split(s, t); (s', ReadPieces(r, ps)) == After(s, r, t)
  {
    hide FindFrom;
    if t != "" {
      match s.mode
      case Idle => ReadIdle(s, r, t);
      case Thinking => ReadThinking(s, r, t);
      case Done => ReadDone(r, t);
    }
  }

  lemma FragmentStep(T: string, closes: set<nat>, t: string, s: Splitter, r: Reading)
    requires FaithfulTo(T, closes, s, r)
    requires forall p <- closes :: p + |CLOSE| <= |T|
    ensures var (s', r') := After(s, r, t); FaithfulTo(T + t, closes + ClosesIn(t, |T|), s', r')
  {
    hide FindFrom;
    if t == "" {
      assert T + t == T;
      forall p: nat ensures p !in ClosesIn(t, |T|) {}
    } else {
      match s.mode
      case Idle => IdleStep(T, closes, t, s, r);
      case Thinking => ThinkingStep(T, closes, t, s, r);
      case Done => DoneStep(T, closes, t, s, r);
    }
  }

  // ---------------------------------------------------------------- consequences

  /** The text that reaches the client as plain text once the stream has ended and the
      lookback buffer has been flushed. */
  function PlainText(texts: seq<string>): string {
    var r, s := ReadingOf(texts), SplitAll(texts).0;
    r.before + (if s.mode == Idle then s.buffer else "") + r.after
  }

  /** A text without `<think>` comes out whole, in every cutting. */
  lemma NoTagConserves(texts: seq<string>)
    requires Find(Concat(texts), OPEN).None?
    ensures PlainText(texts) == Concat(texts) && ReadingOf(texts).thinking == "" && SplitAll(texts).0.mode == Idle
  {
    hide Find, Concat, SplitAll, ReadingOf, WholeCloses;
    SplitterIsFaithful(texts);
    var T, b := Concat(texts), SplitAll(texts).0.buffer;
    assert T == T[..|T| - |b|] + b + "";
  }

  /** All of T before its first `<think>`, at i, has been read as plain text, except for
      whitespace directly before the tag. */
  ghost predicate ReadsUpTo(T: string, i: nat, r: Reading) {
    |r.before| <= i <= |T| && r.before == T[..|r.before|] && Blank(T[|r.before|..i])
  }

  /** The thinking text of r starts at `from`, ends at the closing tag at `at`, and the text
      after the tag has been read as plain text. */
  ghost predicate ClosesAt(T: string, from: nat, at: nat, r: Reading) {
    from <= at && at + |CLOSE| <= |T| && r.ended && r.thinking == T[from..at] && r.after == T[at + |CLOSE|..]
  }

  /** The first `</think>` after the first `<think>` ends the thinking text exactly when it
      arrives within one fragment; then everything after it is plain text. When it is torn,
      the thinking text runs past it. */
  lemma CloseRecognisedIffWhole(texts: seq<string>, i: nat, j: nat)
    requires Find(Concat(texts), OPEN) == Some(i)
    requires Find(Concat(texts)[i + |OPEN|..], CLOSE) == Some(j)
    ensures var from := i + |OPEN|;
            && (from + j in WholeCloses(texts) <==> ClosesAt(Concat(texts), from, from + j, ReadingOf(texts)))
            && (from + j in WholeCloses(texts) <==> ReadingOf(texts).thinking == Concat(texts)[from..from + j])
  {
    hide Find, Concat, SplitAll, ReadingOf, WholeCloses;
    SplitterIsFaithful(texts);
    WholeClosesOccur(texts);
    CloseExact(Concat(texts), WholeCloses(texts), SplitAll(texts).0, ReadingOf(texts), i, j);
  }

  lemma CloseExact(T: string, closes: set<nat>, s: Splitter, r: Reading, i: nat, j: nat)
    requires FaithfulTo(T, closes, s, r) && forall p <- closes :: OccursAt(T, CLOSE, p)
    requires Find(T, OPEN) == Some(i) && Find(T[i + |OPEN|..], CLOSE) == Some(j)
    ensures var from := i + |OPEN|;
            && (from + j in closes <==> ClosesAt(T, from, from + j, r))
            && (from + j in closes <==> r.thinking == T[from..from + j])
  {
    hide FindFrom;
    var from := i + |OPEN|;
    assert T[from..] == T[from..|T|];
    assert OccursAt(T, CLOSE, from + j) by { OccursInSlice(T, CLOSE, from, |T|, j); }
    forall p <- closes | from <= p ensures from + j <= p { OccursInSlice(T, CLOSE, from, |T|, p - from); }
    match s.mode
    case Idle =>
    case Thinking => assert |r.thinking| > j;
    case Done =>
      assert |r.thinking| >= j && (|r.thinking| == j <==> from + j in closes);
      if |r.thinking| == j {
        assert T[from..from + j] == T[from..][..j];
        assert T[from + j + |CLOSE|..] == T[from..][j + |CLOSE|..];
      }
  }

  // ---------------------------------------------------------------- the text before the tag, exactly

  /** Where in the text the lookback buffer starts when the first `<think>` is completed: at most
      six characters before the fragment that completes it. */
  function Lookback(texts: seq<string>): (lo: nat)
    requires Find(Concat(texts), OPEN).Some?
    ensures lo <= Find(Concat(texts), OPEN).value
  {
    hide FindFrom;
    var init, t := texts[..|texts| - 1], texts[|texts| - 1];
    var T := Concat(init);
    if Find(T, OPEN).Some? then
      FindExtended(T, t, OPEN);
      Lookback(init)
    else
      LookbackSuffices(T, t, if |T| <= 6 then 0 else |T| - 6);
      if |T| <= 6 then 0 else |T| - 6
  }

  /** How much of the text before `<think>` is kept: all of it, unless what the lookback buffer
      holds of it is whitespace. */
  function Kept(texts: seq<string>): (n: nat)
    requires Find(Concat(texts), OPEN).Some?
    ensures n <= Find(Concat(texts), OPEN).value
  {
    var i := Find(Concat(texts), OPEN).value;
    if Blank(Concat(texts)[Lookback(texts)..i]) then Lookback(texts) else i
  }

  lemma {:induction false} BeforeIsKept(texts: seq<string>)
    requires Find(Concat(texts), OPEN).Some?
    ensures ReadingOf(texts).before == Concat(texts)[..Kept(texts)]
  {
    hide Find, Blank, WholeCloses, After, Split, FaithfulTo, OccursAt, Kept;
    NothingIn();
    var init, t := texts[..|texts| - 1], texts[|texts| - 1];
    var (s, ps) := SplitAll(init);
    var r := ReadingOf(init);
    SplitterIsFaithful(init);
    ModeOfFaithful(Concat(init), WholeCloses(init), s, r);
    ReadAppend(NOTHING_READ, ps, Split(s, t).1);
    ReadStep(s, r, t);
    assert ReadingOf(texts) == After(s, r, t).1;
    if Find(Concat(init), OPEN).Some? {
      BeforeIsKept(init);
      KeptLater(texts);
      LaterKeeps(s, r, t);
    } else {
      BeforeAtOpening(Concat(init), WholeCloses(init), t, s, r, Lookback(texts));
      KeptNow(texts);
    }
  }

  lemma ModeOfFaithful(T: string, closes: set<nat>, s: Splitter, r: Reading)
    requires FaithfulTo(T, closes, s, r)
    ensures s.mode == Idle <==> Find(T, OPEN).None?
    ensures ModeFits(s, r)
  {
    hide FindFrom;
  }

  lemma LaterKeeps(s: Splitter, r: Reading, t: string)
    requires s.mode != Idle
    ensures After(s, r, t).1.before == r.before
  {
    hide Find;
  }

  /** Once `<think>` has been completed, more text changes nothing about what is kept. */
  lemma KeptLater(texts: seq<string>)
    requires texts != [] && Find(Concat(texts[..|texts| - 1]), OPEN).Some?
    ensures var init := texts[..|texts| - 1];
            && Find(Concat(texts), OPEN) == Find(Concat(init), OPEN)
            && Concat(texts)[..Kept(texts)] == Concat(init)[..Kept(init)]
  {
    hide Find, Blank, OccursAt, Lookback;
    var init := texts[..|texts| - 1];
    FindExtended(Concat(init), texts[|texts| - 1], OPEN);
    LookbackLater(texts);
    SamePrefix(Concat(init), texts[|texts| - 1], Lookback(init), Find(Concat(init), OPEN).value);
  }

  lemma SamePrefix(T: string, t: string, lo: nat, i: nat)
    requires lo <= i <= |T|
    ensures (T + t)[lo..i] == T[lo..i] && (T + t)[..lo] == T[..lo] && (T + t)[..i] == T[..i]
  {
  }

  lemma LookbackLater(texts: seq<string>)
    requires texts != [] && Find(Concat(texts[..|texts| - 1]), OPEN).Some? && Find(Concat(texts), OPEN).Some?
    ensures Lookback(texts) == Lookback(texts[..|texts| - 1])
  {
    hide Find, OccursAt;
  }

  lemma KeptNow(texts: seq<string>)
    requires Find(Concat(texts), OPEN).Some? && texts != [] && Find(Concat(texts[..|texts| - 1]), OPEN).None?
    ensures var lo, T, i := Lookback(texts), Concat(texts[..|texts| - 1]), Find(Concat(texts), OPEN).value;
            && lo <= |T| && (lo == 0 || lo + 6 == |T|) && |T| <= lo + 6
            && Concat(texts)[..Kept(texts)]
               == if Blank(Concat(texts)[lo..i]) then Concat(texts)[..lo] else Concat(texts)[..i]
  {
    hide Find, Blank, OccursAt;
  }

  /** The text before `<think>` when fragment t completes the tag. */
  lemma BeforeAtOpening(T: string, closes: set<nat>, t: string, s: Splitter, r: Reading, lo: nat)
    requires FaithfulTo(T, closes, s, r) && Find(T, OPEN).None? && Find(T + t, OPEN).Some?
    requires lo <= |T| && (lo == 0 || lo + 6 == |T|) && |T| <= lo + 6
    ensures var i := Find(T + t, OPEN).value;
            && lo <= i
            && After(s, r, t).1.before == if Blank((T + t)[lo..i]) then (T + t)[..lo] else (T + t)[..i]
  {
    hide Find, Blank, OccursAt, After;
    assert T + "" == T;
    LookbackSuffices(T, t, lo);
    var i := Find(T + t, OPEN).value;
    WasIdle(T, closes, s, r, lo);
    assert s.buffer + t == (T + t)[lo..];
    OpenedBefore(s, r, t, i - lo);
    SlicesAt(T, t, lo, i);
  }

  lemma WasIdle(T: string, closes: set<nat>, s: Splitter, r: Reading, lo: nat)
    requires FaithfulTo(T, closes, s, r) && Find(T, OPEN).None?
    requires lo <= |T| && (lo == 0 || lo + 6 == |T|) && |T| <= lo + 6
    ensures s.mode == Idle && s.buffer == T[lo..] && r.before == T[..lo]
  {
    hide Find;
  }

  lemma OpenedBefore(s: Splitter, r: Reading, t: string, k: nat)
    requires s.mode == Idle && t != "" && Find(s.buffer + t, OPEN) == Some(k)
    ensures var buf := s.buffer + t;
            After(s, r, t).1.before == if Blank(buf[..k]) then r.before else r.before + buf[..k]
  {
    hide Find, Blank;
  }

  lemma SlicesAt(T: string, t: string, lo: nat, i: nat)
    requires lo <= |T| && lo <= i <= |T + t|
    ensures (T + t)[lo..][..i - lo] == (T + t)[lo..i]
    ensures (T + t)[..i] == T[..lo] + (T + t)[lo..i] && (T + t)[..lo] == T[..lo]
  {
  }


  lemma NothingIn()
    ensures Find("", OPEN).None?
  {
  }

  /** The text before the first `<think>`, at i, comes out whole exactly when the lookback buffer
      holds none of it, or something besides whitespace; otherwise the part held is dropped. */
  lemma BeforeTag(texts: seq<string>, i: nat)
    requires Find(Concat(texts), OPEN) == Some(i)
    ensures var T, lo, before := Concat(texts), Lookback(texts), ReadingOf(texts).before;
            && before == (if Blank(T[lo..i]) then T[..lo] else T[..i])
            && (before == T[..i] <==> lo == i || !Blank(T[lo..i]))
    ensures ReadsUpTo(Concat(texts), i, ReadingOf(texts))
  {
    hide Find, Concat, SplitAll, ReadingOf, Lookback, Blank;
    BeforeIsKept(texts);
    assert Concat(texts)[i..i] == "";
    assert Blank("") by { NothingBlank(); }
  }

  lemma NothingBlank()
    ensures Blank("")
  {
  }

  // ---------------------------------------------------------------- two cuttings of one text

  /** The same closing tag, if any, is the first one after `from` to arrive within one fragment. */
  ghost predicate SameClose(texts: seq<string>, texts': seq<string>, from: nat) {
    forall p: nat :: IsFirst(WholeCloses(texts), from, p) <==> IsFirst(WholeCloses(texts'), from, p)
  }

  /** Two cuttings of one text agree on the text before the first `<think>` exactly when both
      keep the same part of it, and on the text after it exactly when the same closing tag is
      the first that neither tears. */
  lemma ChunkingIndependence(texts: seq<string>, texts': seq<string>)
    requires Concat(texts) == Concat(texts')
    ensures var T, r, r' := Concat(texts), ReadingOf(texts), ReadingOf(texts');
            match Find(T, OPEN)
            case None => PlainText(texts) == PlainText(texts') && r.thinking == r'.thinking
            case Some(i) =>
              && ReadsUpTo(T, i, r) && ReadsUpTo(T, i, r')
              && (r.before == r'.before <==> Kept(texts) == Kept(texts'))
              && (r.thinking == r'.thinking && r.after == r'.after <==> SameClose(texts, texts', i + |OPEN|))
              && (match Find(T[i + |OPEN|..], CLOSE)
                  case None => r.thinking == r'.thinking == T[i + |OPEN|..] && r.after == r'.after == ""
                  case Some(j) =>
                    var at := i + |OPEN| + j;
                    at in WholeCloses(texts) && at in WholeCloses(texts') ==>
                      ClosesAt(T, i + |OPEN|, at, r) && ClosesAt(T, i + |OPEN|, at, r'))
  {
    hide Find, Concat, SplitAll, ReadingOf, PlainText, WholeCloses, ReadsUpTo, ClosesAt, Kept;
    var T := Concat(texts);
    match Find(T, OPEN)
    case None => NoTagConserves(texts); NoTagConserves(texts');
    case Some(i) =>
      BeforeTag(texts, i);
      BeforeTag(texts', i);
      BeforeIsKept(texts);
      BeforeIsKept(texts');
      CloseDecides(texts, texts', i);
      match Find(T[i + |OPEN|..], CLOSE)
      case None => NeverClosed(texts, i); NeverClosed(texts', i);
      case Some(j) => CloseRecognisedIffWhole(texts, i, j); CloseRecognisedIffWhole(texts', i, j);
  }

  lemma CloseDecides(texts: seq<string>, texts': seq<string>, i: nat)
    requires Concat(texts) == Concat(texts') && Find(Concat(texts), OPEN) == Some(i)
    ensures var r, r' := ReadingOf(texts), ReadingOf(texts');
            r.thinking == r'.thinking && r.after == r'.after <==> SameClose(texts, texts', i + |OPEN|)
  {
    hide Find, Concat, SplitAll, ReadingOf, WholeCloses, IsFirst;
    SplitterIsFaithful(texts);
    SplitterIsFaithful(texts');
    var from, r, r' := i + |OPEN|, ReadingOf(texts), ReadingOf(texts');
    FirstIsUnique(WholeCloses(texts), from);
    FirstIsUnique(WholeCloses(texts'), from);
    assert r.ended ==> IsFirst(WholeCloses(texts), from, from + |r.thinking|);
    assert r'.ended ==> IsFirst(WholeCloses(texts'), from, from + |r'.thinking|);
    if r.ended && r'.ended {
      var rest := Concat(texts)[from..];
      assert r.thinking == rest[..|r.thinking|] && r'.thinking == rest[..|r'.thinking|];
      assert r.after == rest[|r.thinking| + |CLOSE|..] && r'.after == rest[|r'.thinking| + |CLOSE|..];
    } else if r.ended {
      assert |r.thinking| < |r'.thinking|;
    } else if r'.ended {
      assert |r'.thinking| < |r.thinking|;
    }
  }

  lemma FirstIsUnique(closes: set<nat>, from: nat)
    ensures forall p, q | IsFirst(closes, from, p) && IsFirst(closes, from, q) :: p == q
    ensures (forall p: nat | from <= p :: p !in closes) ==> forall p :: !IsFirst(closes, from, p)
  {
  }

  /** What is read after `<think>`, at i: up to the first closing tag that arrives within one
      fragment, if there is one, it is thinking text, and what follows that tag is plain text. */
  lemma AfterTag(texts: seq<string>, i: nat)
    requires Find(Concat(texts), OPEN) == Some(i)
    ensures var T, from, r := Concat(texts), i + |OPEN|, ReadingOf(texts);
            && (forall p: nat | IsFirst(WholeCloses(texts), from, p) :: ClosesAt(T, from, p, r))
            && ((forall p: nat :: !IsFirst(WholeCloses(texts), from, p)) ==> r.thinking == T[from..] && r.after == "")
  {
    hide Find, Concat, SplitAll, ReadingOf, WholeCloses, IsFirst;
    SplitterIsFaithful(texts);
    var T, from, r, s := Concat(texts), i + |OPEN|, ReadingOf(texts), SplitAll(texts).0;
    FirstIsUnique(WholeCloses(texts), from);
    if s.mode == Done {
      var rest, n := T[from..], |r.thinking|;
      assert IsFirst(WholeCloses(texts), from, from + n);
      assert r.thinking == rest[..n] == T[from..from + n];
      assert r.after == rest[n + |CLOSE|..] == T[from + n + |CLOSE|..];
    }
  }

  // ---------------------------------------------------------------- pieces are worth sending

  predicate SaysSomething(p: Piece) {
    match p
    case Plain(t) => t != ""
    case Thought(t) => t != ""
    case _ => true
  }

  /** Two pieces that follow each other are of different kinds. */
  predicate Differ(p: Piece, q: Piece) {
    !(p.Plain? && q.Plain?) && !(p.Thought? && q.Thought?)
  }

  /** What one fragment adds is let out in as few pieces as there are changes of kind, none of them
      empty. */
  lemma PiecesAreWhole(s: Splitter, text: string)
    ensures var ps := Split(s, text).1;
            && (forall p <- ps :: SaysSomething(p))
            && (forall k | 0 <= k < |ps| - 1 :: Differ(ps[k], ps[k + 1]))
  {
    hide Find, Split, SplitIdle, SplitThinking, Blank;
    if s.mode == Idle && text != "" {
      IdlePieces(s, text);
      var buf := s.buffer + text;
      if Find(buf, OPEN).Some? {
        var i := Find(buf, OPEN).value;
        ThinkingPieces(Splitter(Thinking, ""), buf[i + |OPEN|..]);
        SplitOpened(s, text, i);
      }
    } else {
      ThinkingPieces(s, text);
    }
    SplitCases(s, text);
  }

  lemma SplitCases(s: Splitter, text: string)
    ensures Split(s, text).1 == if text == "" then []
                                else match s.mode
                                  case Idle => SplitIdle(s, text).1
                                  case Thinking => SplitThinking(s, text).1
                                  case Done => [Plain(text)]
  {
    hide Find, SplitIdle, SplitThinking;
  }

  lemma ThinkingPieces(s: Splitter, text: string)
    ensures var ps := SplitThinking(s, text).1;
            && (forall p <- ps :: SaysSomething(p) && !p.OpenThink?)
            && (forall k | 0 <= k < |ps| - 1 :: Differ(ps[k], ps[k + 1]))
  {
    hide Find;
  }

  lemma IdlePieces(s: Splitter, text: string)
    ensures Find(s.buffer + text, OPEN).None? ==>
              var ps := SplitIdle(s, text).1; |ps| <= 1 && forall p <- ps :: SaysSomething(p)
  {
    hide Find, SplitThinking;
  }

  lemma SplitOpened(s: Splitter, text: string, i: nat)
    requires Find(s.buffer + text, OPEN) == Some(i)
    ensures var buf := s.buffer + text;
            var before, rest := buf[..i], SplitThinking(Splitter(Thinking, ""), buf[i + |OPEN|..]).1;
            SplitIdle(s, text).1 == (if Blank(before) then [] else [Plain(before)]) + [OpenThink] + rest
            && (!Blank(before) ==> before != "")
  {
    hide Find, SplitThinking;
  }

  // ---------------------------------------------------------------- inputs that lose something

  /** Whitespace before the tag is dropped when nothing else is held with it: here all of it. */
  lemma LeadingSpaceDropped()
    ensures Concat([" <think>"]) == " <think>" && ReadingOf([" <think>"]).before == ""
  {
    OnlyFragment(" <think>");
    FoundAt(" <think>", OPEN, 1);
    BeforeTag([" <think>"], 1);
  }

  lemma LookbackNow(texts: seq<string>)
    requires texts != [] && Find(Concat(texts[..|texts| - 1]), OPEN).None? && Find(Concat(texts), OPEN).Some?
    ensures var n := |Concat(texts[..|texts| - 1])|; Lookback(texts) == if n <= 6 then 0 else n - 6
  {
    hide Find, OccursAt;
  }

  lemma SpacesAreBlank()
    ensures Blank("      ") && !Blank("a      ")
  {
    assert "a      "[0] == 'a';
  }

  lemma SixSpacesKept()
    ensures Concat(["a      <think>"]) == "a      <think>" && ReadingOf(["a      <think>"]).before == "a      "
  {
    hide Find, ReadingOf, Lookback, Concat, Blank;
    var whole: string, alone: seq<string> := "a      <think>", ["a      <think>"];
    OnlyFragment(whole);
    FoundAt(whole, OPEN, 7);
    NothingIn();
    assert alone[..0] == [] && Concat([]) == "" by { NoFragments(); }
    LookbackNow(alone);
    BeforeTag(alone, 7);
    assert whole[0..7] == "a      ";
    SpacesAreBlank();
  }

  lemma NoFragments()
    ensures Concat([]) == ""
  {
  }

  lemma SixSpacesDropped()
    ensures Concat(["a      ", "<think>"]) == "a      <think>" && ReadingOf(["a      ", "<think>"]).before == "a"
  {
    hide Find, ReadingOf, Lookback, Concat, Blank;
    var whole, first, cut := "a      <think>", "a      ", ["a      ", "<think>"];
    OnlyFragment(first);
    ConcatSnoc([first], "<think>");
    assert cut == [first] + ["<think>"] && first + "<think>" == whole;
    FoundAt(whole, OPEN, 7);
    NotFound(first, OPEN);
    assert cut[..1] == [first];
    LookbackNow(cut);
    BeforeTag(cut, 7);
    assert whole[1..7] == "      ";
    SpacesAreBlank();
  }

  /** The cutting decides: six spaces are kept in one fragment with the letter before them, and
      dropped when that letter has left the buffer. */
  lemma CuttingDecides()
    ensures Concat(["a      ", "<think>"]) == Concat(["a      <think>"])
    ensures ReadingOf(["a      ", "<think>"]).before == "a" && ReadingOf(["a      <think>"]).before == "a      "
  {
    hide ReadingOf, Concat;
    SixSpacesKept();
    SixSpacesDropped();
  }

  /** A closing tag torn between two fragments is read as thinking text, with all that follows. */
  lemma TornCloseMissed()
    ensures var texts := ["<think>a</th", "ink>b"];
            Concat(texts) == "<think>a</think>b" && ReadingOf(texts) == Reading("", true, "a</think>b", false, "")
  {
    hide Find, SplitAll, ReadingOf, Concat, WholeCloses;
    var texts, whole := ["<think>a</th", "ink>b"], "<think>a</think>b";
    TornText();
    NoWholeClose();
    FoundAt(whole, OPEN, 0);
    SplitterIsFaithful(texts);
    assert whole[|OPEN|..] == "a</think>b";
  }

  lemma TornText()
    ensures Concat(["<think>a</th", "ink>b"]) == "<think>a</think>b"
  {
    OnlyFragment("<think>a</th");
    assert ["<think>a</th", "ink>b"] == ["<think>a</th"] + ["ink>b"];
    ConcatSnoc(["<think>a</th"], "ink>b");
    assert "<think>a</th" + "ink>b" == "<think>a</think>b";
  }

  lemma NoWholeClose()
    ensures WholeCloses(["<think>a</th", "ink>b"]) == {}
  {
    hide Find, ClosesIn;
    var texts := ["<think>a</th", "ink>b"];
    assert texts[..1] == ["<think>a</th"] && texts[..1][..0] == [];
    NotFound("<think>a</th", CLOSE);
    NotFound("ink>b", CLOSE);
    NoCloseIn("<think>a</th", |Concat([])|);
    NoCloseIn("ink>b", |Concat(texts[..1])|);
    assert WholeCloses(texts[..1]) == {};
  }

  lemma OnlyFragment(t: string)
    ensures Concat([t]) == t
  {
    assert [t][..0] == [] && Concat([]) == "" && "" + t == t;
  }

  lemma FoundAt(s: string, tag: string, i: nat)
    requires OccursAt(s, tag, i) && |tag| > 0 && forall k | 0 <= k < i :: s[k] != tag[0]
    ensures Find(s, tag) == Some(i)
  {
    forall k: nat | k < i ensures !OccursAt(s, tag, k) {
      assert k + |tag| <= |s| ==> s[k..k + |tag|][0] == s[k];
    }
  }

  lemma NotFound(s: string, tag: string)
    requires |tag| > 1 && forall k | 0 <= k <= |s| - |tag| :: s[k] != tag[0] || s[k + 1] != tag[1]
    ensures Find(s, tag).None?
  {
    forall k: nat ensures !OccursAt(s, tag, k) {
      assert k + |tag| <= |s| ==> s[k..k + |tag|][0] == s[k] && s[k..k + |tag|][1] == s[k + 1];
    }
  }

  lemma NeverClosed(texts: seq<string>, i: nat)
    requires Find(Concat(texts), OPEN) == Some(i) && Find(Concat(texts)[i + |OPEN|..], CLOSE).None?
    ensures ReadingOf(texts).thinking == Concat(texts)[i + |OPEN|..] && ReadingOf(texts).after == ""
  {
    hide FindFrom, Concat, SplitAll, ReadingOf, WholeCloses;
    SplitterIsFaithful(texts);
    WholeClosesOccur(texts);
    var T := Concat(texts);
    assert T[i + |OPEN|..] == T[i + |OPEN|..|T|];
    forall p <- WholeCloses(texts) ensures p < i + |OPEN| {
      if i + |OPEN| <= p { OccursInSlice(T, CLOSE, i + |OPEN|, |T|, p - i - |OPEN|); }
    }
  }
}
