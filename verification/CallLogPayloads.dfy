/** What a flush sends, and in which order the buffer keeps its entries. */
module CallLogPayloads {
  import opened Wrappers
  import opened CallLogBuffer
  import opened CallLogLaws

  // ---------------------------------------------------------------- what a payload says

  /** The fields of a call that has been paid for: a positive cost, and status 200. */
  predicate Pays(fields: Fields) {
    && "cost" in fields && fields["cost"].Num? && fields["cost"].n > 0.0
    && "status" in fields && fields["status"] == Num(200.0)
  }

  /** An update sets the billing mark exactly when the merged fields pay, and never takes it back. */
  lemma UpdateBills(e: Entry, fields: Fields)
    ensures Updated(e, fields).hasBilling <==> e.hasBilling || Pays(e.fields + fields)
  {
  }

  /** Along the history: whether some update has paid for the entry now in flight, and for the one now
      buffered, since it was created. */
  function Paid(cfg: Config, es: seq<Event>, id: string): (bool, bool) {
    if es == [] then (false, false)
    else
      var init, e := es[..|es| - 1], es[|es| - 1];
      var (flight, buffered) := Paid(cfg, init, id);
      var h := HeldOf(Run(cfg, init), id);
      if !Enabled(Run(cfg, init), e) then (flight, buffered)
      else match e
        case Record(i, _) => (flight, if i == id then false else buffered)
        case Update(i, fields) =>
          (flight, if i == id then (h.buffered.Some? && buffered) || Pays(FieldsOf(h.buffered) + fields) else buffered)
        case Begin => (buffered, false)
        case End(true) => (false, buffered)
        case End(false) => (false, if h.flight.Some? && h.buffered.None? then flight else buffered)
  }

  lemma {:induction false} PaidRecorded(cfg: Config, es: seq<Event>, id: string)
    ensures var h, paid := HeldOf(Run(cfg, es), id), Paid(cfg, es, id);
            && (h.flight.Some? ==> h.flight.value.hasBilling == paid.0)
            && (h.buffered.Some? ==> h.buffered.value.hasBilling == paid.1)
  {
    hide Step, Loses, HeldOf, StepHeld, Pays;
    if es == [] {
      NothingHeld(cfg, id);
    } else {
      var init, e := es[..|es| - 1], es[|es| - 1];
      var st := Run(cfg, init);
      PaidRecorded(cfg, init, id);
      if Enabled(st, e) {
        StepIsHeld(cfg, st, e, id);
        StepLocal(cfg, st, e, id);
        StepBills(cfg, HeldOf(st, id), e, id, Loses(cfg, st, e, id));
      }
    }
  }

  lemma StepBills(cfg: Config, h: Held, e: Event, id: string, loses: bool)
    requires Local(cfg, h, e, id, loses)
    ensures var h' := StepHeld(cfg, h, e, id, loses);
            && (e.End? ==> h'.flight.None?)
            && (e.Begin? ==> h'.buffered.None? && (h'.flight.Some? ==> h'.flight == h.buffered))
            && (e.Record? || e.Update? ==> h'.flight == h.flight)
            && (h'.buffered.Some? ==>
                  if e.Passes(id) then
                    h'.buffered.value.hasBilling
                    == (e.Update?
                        && ((h.buffered.Some? && h.buffered.value.hasBilling) || Pays(FieldsOf(h.buffered) + e.fields)))
                  else if e == End(false) && h.flight.Some? && h.buffered.None? then
                    h'.buffered.value.hasBilling == h.flight.value.hasBilling
                  else h.buffered.Some? && h'.buffered == h.buffered)
  {
    hide Updated, Pays;
    if e.Update? && e.id == id {
      var before := if h.buffered.Some? then h.buffered.value else Entry(map[], false, 0);
      UpdateBills(before, e.fields);
    }
  }

  /** What a payload asks the gateway to do with a log entry. */
  ghost predicate Asks(p: Payload, paid: bool) {
    && (p.action == Complete <==> paid && "status" in p.fields)
    && (p.action == Action.Update <==>
          !paid && "status" in p.fields && p.fields["status"].Num? && p.fields["status"].n >= 200.0)
  }

  lemma {:induction false} PayloadAt(d: Dict, keys: seq<string>, k: nat)
    requires (forall key <- keys :: key in d.at) && k < |keys|
    ensures |PayloadsOf(d, keys)| == |keys|
    ensures keys[k] in keys
            && var e, p := d.at[keys[k]], PayloadsOf(d, keys)[k];
               p.id == keys[k] && p.fields == e.fields && (CanSend(d) && keys == d.keys ==> Asks(p, e.hasBilling))
  {
    PayloadCount(d, keys);
    PayloadIs(d, keys, k);
  }

  lemma {:induction false} PayloadCount(d: Dict, keys: seq<string>)
    requires forall key <- keys :: key in d.at
    ensures |PayloadsOf(d, keys)| == |keys|
  {
    if keys != [] {
      assert forall key <- keys[..|keys| - 1] :: key in keys;
      PayloadCount(d, keys[..|keys| - 1]);
    }
  }

  lemma {:induction false} PayloadIs(d: Dict, keys: seq<string>, k: nat)
    requires (forall key <- keys :: key in d.at) && k < |keys| == |PayloadsOf(d, keys)|
    ensures keys[k] in d.at && PayloadsOf(d, keys)[k] == Payload(keys[k], ActionOf(d.at[keys[k]]), d.at[keys[k]].fields)
  {
    hide ActionOf;
    var init, last := keys[..|keys| - 1], keys[|keys| - 1];
    assert last in keys && forall key <- init :: key in keys;
    PayloadCount(d, init);
    if k < |init| { PayloadIs(d, init, k); }
  }

  /** Over any history: a flush that begins sends one payload for each buffered entry, oldest first, with
      all its fields, asking to complete the log entry exactly when the call has been paid for and has
      a status, and to update it exactly when it has not been paid for and the status is 200 or more. */
  lemma FlushSends(cfg: Config, es: seq<Event>, k: nat)
    requires var d := Run(cfg, es).entries; k < |d.keys| && CanSend(d)
    ensures var d := Run(cfg, es).entries; |PayloadsOf(d, d.keys)| == |d.keys|
    ensures var d := Run(cfg, es).entries;
            var p, id := PayloadsOf(d, d.keys)[k], d.keys[k];
            && p.id == id && p.fields == FieldsOf(HeldOf(Run(cfg, es), id).buffered)
            && Asks(p, Paid(cfg, es, id).1)
  {
    hide Run, PayloadsOf, ActionOf, Paid, Delivered;
    var d := Run(cfg, es).entries;
    PayloadAt(d, d.keys, k);
    PaidRecorded(cfg, es, d.keys[k]);
  }

  /** A flush reaches the gateway exactly when there is one, there is something to send, and every status
      in the batch is missing, None or a number. */
  lemma SentExactly(cfg: Config, st: State)
    requires Valid(st) && st.batch.None?
    ensures var st' := BeginStep(cfg, st);
            && (st'.batch.Some? <==>
                 && cfg.hasGateway && st.entries.keys != []
                 && forall id <- st.entries.at.Keys ::
                      var fields := st.entries.at[id].fields;
                      "status" !in fields || fields["status"] == Null || fields["status"].Num?)
            && (st'.batch.Some? ==> st'.batch.value == st.entries)
            && st'.entries.keys == [] && st'.received == st.received
  {
    assert forall id :: id in st.entries.keys <==> id in st.entries.at;
  }

  // ---------------------------------------------------------------- the order of the entries

  /** A new entry goes to the end; a full buffer first drops the entry at the front, and no other. */
  lemma RecordKeys(cfg: Config, st: State, id: string, fields: Fields)
    ensures var keys := st.entries.keys;
            var room := if keys != [] && |keys| >= cfg.maxBuffer then keys[1..] else keys;
            Valid(st) ==> RecordStep(cfg, st, id, fields).entries.keys == if id in room then room else room + [id]
  {
    if Valid(st) && IsFull(cfg, st.entries) { DropValid(st.entries); }
  }

  lemma UpdateKeys(st: State, id: string, fields: Fields)
    requires Valid(st)
    ensures var keys := st.entries.keys;
            UpdateStep(st, id, fields).entries.keys == if id in keys then keys else keys + [id]
  {
  }

  /** The entries of a batch that come back: those with retries left that were not re-created. */
  function Returning(cfg: Config, d: Dict, batch: Dict, keys: seq<string>): seq<string>
    requires forall k <- keys :: k in batch.at
  {
    if keys == [] then []
    else
      var last := keys[|keys| - 1];
      assert last in keys;
      Returning(cfg, d, batch, keys[..|keys| - 1])
      + if batch.at[last].retryCount < cfg.maxRetries && last !in d.at then [last] else []
  }

  /** They come back at the end, in the order they had. */
  lemma {:induction false} MergeKeys(cfg: Config, d: Dict, batch: Dict, keys: seq<string>)
    requires forall k <- keys :: k in batch.at
    requires forall i, j | 0 <= i < j < |keys| :: keys[i] != keys[j]
    ensures MergeBack(cfg, d, batch, keys).keys == d.keys + Returning(cfg, d, batch, keys)
  {
    if keys != [] {
      var init, last := keys[..|keys| - 1], keys[|keys| - 1];
      assert last in keys && last !in init && keys == init + [last];
      MergeKeys(cfg, d, batch, init);
      MergedAt(cfg, d, batch, init, last);
    }
  }
}
