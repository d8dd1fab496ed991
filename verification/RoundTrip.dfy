/**
 An Anthropic upstream in front of an Anthropic client: the normaliser, then the Anthropic stream
 converter and its closing rule.
 */
module RoundTrip {
  import opened Wrappers
  import opened OpenAiChunks
  import opened AnthropicEvents
  import opened AnthropicLaws
  import Normalize = NormalizeStream

  /** No chunk before the last one ends the stream. */
  ghost predicate GoesOn(cs: seq<Chunk>) { forall c <- cs :: !Ends(c) }

  lemma {:induction false} AllConsumed(cs: seq<Chunk>, last: Chunk)
    requires GoesOn(cs)
    ensures Consumed(cs) == cs && Consumed(cs + [last]) == cs + [last]
  {
    hide Ends;
    assert (cs + [last])[..|cs|] == cs;
    if cs != [] {
      var init, c := cs[..|cs| - 1], cs[|cs| - 1];
      assert c in cs && init + [c] == cs && forall x <- init :: x in cs;
      AllConsumed(init, c);
    }
  }

  lemma {:induction false} NothingEnds(es: seq<Normalize.Upstream>)
    requires forall e <- es :: !e.MessageDelta?
    ensures GoesOn(Normalize.NormalizeAll(es).1)
  {
    if es != [] {
      var init, e := es[..|es| - 1], es[|es| - 1];
      assert e in es && forall x <- init :: x in es;
      NothingEnds(init);
      hide Normalize.NormalizeAll;
      assert forall n :: GoesOn(Normalize.Normalize(n, e).1);
      Normalize.NormalizeSnoc(init, e);
      assert init + [e] == es;
    }
  }

  lemma {:induction false} PartsGoOn(parts: seq<Normalize.Part>)
    ensures forall e <- Normalize.PartsEvents(parts) :: !e.MessageDelta?
  {
    if parts != [] { PartsGoOn(parts[..|parts| - 1]); }
  }

  /** The chunks of a message all count, and the last one tells how it ended. */
  lemma TurnConsumed(t: Normalize.Turn)
    ensures var cs := Normalize.NormalizeAll(Normalize.TurnEvents(t)).1;
            && cs != [] && Consumed(cs) == cs && Ended(cs)
            && EndReason(cs) == LastFinish(cs)
            && OutputTokens(cs) == t.outputTokens
  {
    hide Normalize.NormalizeAll, Normalize.PartsEvents, Consumed;
    var es := [Normalize.MessageStart(Some(t.inputTokens))] + Normalize.PartsEvents(t.parts);
    var delta := Normalize.MessageDelta(t.stopReason, Some(t.outputTokens));
    PartsGoOn(t.parts);
    NothingEnds(es);
    assert Normalize.TurnEvents(t) == (es + [delta]) + [Normalize.MessageStop];
    Normalize.NormalizeSnoc(es, delta);
    Normalize.NormalizeSnoc(es + [delta], Normalize.MessageStop);
    var (n, cs) := Normalize.NormalizeAll(es);
    var last := Normalize.Normalize(n, delta).1[0];
    assert Normalize.NormalizeAll(Normalize.TurnEvents(t)).1 == cs + [last] + [] == cs + [last];
    AllConsumed(cs, last);
    Normalize.TurnCarried(t);
  }

  /** The stop reasons of the table come back unchanged; any other one, `stop_sequence` included,
      comes back as the end of the turn. */
  lemma StopReasonRoundTrip(t: Normalize.Turn, es: seq<Normalize.Upstream>)
    requires Normalize.WithoutNoise(es) == Normalize.TurnEvents(t)
    ensures var client := ClientOf(Normalize.NormalizeAll(es).1, false);
            && client.Complete?
            && client.message.stopReason
               == (if t.stopReason in {"end_turn", "max_tokens", "tool_use"} then t.stopReason else "end_turn")
            && client.message.outputTokens == t.outputTokens
  {
    hide Normalize.NormalizeAll, Normalize.WithoutNoise, ClientOf, Consumed, OutputTokens, EndReason, Ended;
    Normalize.NoiseIgnored(es);
    var cs := Normalize.NormalizeAll(es).1;
    Normalize.TurnCarried(t);
    TurnConsumed(t);
    AnthropicStreamMeaning(cs, false);
  }
}
