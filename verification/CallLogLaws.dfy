/** No call-log update is lost, over every interleaving of calls and flushes: exactly when. */
module CallLogLaws {
  import opened Wrappers
  import opened CallLogBuffer

  datatype Event =
    | Record(id: string, fields: Fields)
    | Update(id: string, fields: Fields)
    | Begin
    | End(ok: bool)
  {
    /** A call that passes fields for `i`. */
    predicate Passes(i: string) { (Record? || Update?) && id == i }
  }

  /** A flush begins only when none is in progress, and ends only when one is; the periodic task
      awaits each flush. */
  predicate Enabled(st: State, e: Event) {
    match e
    case Begin => st.batch.None?
    case End(_) => st.batch.Some?
    case _ => true
  }

  function Step(cfg: Config, st: State, e: Event): State
    requires Valid(st) && Enabled(st, e)
  {
    match e
    case Record(id, fields) => RecordStep(cfg, st, id, fields)
    case Update(id, fields) => UpdateStep(st, id, fields)
    case Begin => BeginStep(cfg, st)
    case End(ok) => EndStep(cfg, st, ok)
  }

  // ---------------------------------------------------------------- steps keep the dictionaries in order

  lemma PutValid(d: Dict, id: string, e: Entry)
    requires d.Valid()
    ensures Put(d, id, e).Valid() && Put(d, id, e).at == d.at[id := e]
  {
  }

  lemma DropValid(d: Dict)
    requires d.Valid() && d.keys != []
    ensures DropOldest(d).Valid()
  {
    var rest := d.keys[1..];
    assert d.keys == [d.keys[0]] + rest;
    forall k ensures k in rest <==> k in d.at - {d.keys[0]} {
      if k in rest { var i :| 0 <= i < |rest| && rest[i] == k; assert d.keys[i + 1] == k; }
    }
  }

  lemma {:induction false} MergeValid(cfg: Config, d: Dict, batch: Dict, keys: seq<string>)
    requires d.Valid() && (forall k <- keys :: k in batch.at)
    ensures MergeBack(cfg, d, batch, keys).Valid()
  {
    if keys != [] {
      var last := keys[|keys| - 1];
      assert last in keys;
      MergeValid(cfg, d, batch, keys[..|keys| - 1]);
      var merged := MergeBack(cfg, d, batch, keys[..|keys| - 1]);
      PutValid(merged, last, batch.at[last].(retryCount := batch.at[last].retryCount + 1));
    }
  }

  lemma StepValid(cfg: Config, st: State, e: Event)
    requires Valid(st) && Enabled(st, e)
    ensures Valid(Step(cfg, st, e))
  {
    match e
    case Record(id, fields) =>
      if IsFull(cfg, st.entries) { DropValid(st.entries); }
      PutValid(if IsFull(cfg, st.entries) then DropOldest(st.entries) else st.entries, id, Entry(fields, false, 0));
    case Update(id, fields) =>
      var e := if id in st.entries.at then st.entries.at[id] else Entry(map[], false, 0);
      PutValid(st.entries, id, Updated(e, fields));
    case Begin =>
    case End(ok) => if !ok { MergeValid(cfg, st.entries, st.batch.value, st.batch.value.keys); }
  }

  // ---------------------------------------------------------------- runs

  /** The state after a history; an event that is not enabled cannot happen and does nothing. */
  function Run(cfg: Config, es: seq<Event>): (st: State)
    ensures Valid(st)
  {
    if es == [] then NEW_STATE
    else
      var st, e := Run(cfg, es[..|es| - 1]), es[|es| - 1];
      if !Enabled(st, e) then st
      else
        StepValid(cfg, st, e);
        Step(cfg, st, e)
  }

  /** All fields ever passed for an id, merged in order. */
  function Passed(es: seq<Event>, id: string): Fields {
    if es == [] then map[]
    else
      var e := es[|es| - 1];
      Passed(es[..|es| - 1], id) + if e.Passes(id) then e.fields else map[]
  }

  /** The payloads the gateway accepted for an id, merged in order. */
  function Delivered(ps: seq<Payload>, id: string): Fields {
    if ps == [] then map[]
    else Delivered(ps[..|ps| - 1], id) + if ps[|ps| - 1].id == id then ps[|ps| - 1].fields else map[]
  }

  /** The steps that lose what is held for an id: recording it again while it is buffered, its
      eviction from a full buffer, swapping it out with no gateway set or with some status in the
      batch that is no number, and a failed flush of it when its retries are used up or it has
      been re-created meanwhile. */
  predicate Loses(cfg: Config, st: State, e: Event, id: string) {
    Enabled(st, e) &&
    match e
    case Record(i, _) => id in st.entries.at && (i == id || (IsFull(cfg, st.entries) && st.entries.keys[0] == id))
    case Update(_, _) => false
    case Begin => !(cfg.hasGateway && CanSend(st.entries)) && id in st.entries.at
    case End(ok) =>
      !ok && id in st.batch.value.at
      && (st.batch.value.at[id].retryCount + 1 > cfg.maxRetries || id in st.entries.at)
  }

  predicate Lossless(cfg: Config, es: seq<Event>, id: string) {
    es == []
    || (var init := es[..|es| - 1];
        Lossless(cfg, init, id) && !Loses(cfg, Run(cfg, init), es[|es| - 1], id))
  }

  // ---------------------------------------------------------------- what each step does for one id

  lemma MergeAssociative(a: Fields, b: Fields, c: Fields)
    ensures (a + b) + c == a + (b + c)
  {
  }

  lemma {:induction false} DeliveredAppend(ps: seq<Payload>, qs: seq<Payload>, id: string)
    ensures Delivered(ps + qs, id) == Delivered(ps, id) + Delivered(qs, id)
  {
    if qs == [] {
      assert ps + qs == ps;
    } else {
      assert (ps + qs)[..|ps + qs| - 1] == ps + qs[..|qs| - 1];
      DeliveredAppend(ps, qs[..|qs| - 1], id);
      var last := if qs[|qs| - 1].id == id then qs[|qs| - 1].fields else map[];
      MergeAssociative(Delivered(ps, id), Delivered(qs[..|qs| - 1], id), last);
    }
  }

  lemma NothingDelivered(id: string)
    ensures Delivered([], id) == map[]
  {
  }

  lemma DeliveredSnoc(ps: seq<Payload>, p: Payload, id: string)
    ensures Delivered(ps + [p], id) == Delivered(ps, id) + if p.id == id then p.fields else map[]
  {
    assert (ps + [p])[..|ps|] == ps;
  }

  /** A batch delivers for each id exactly the fields it held. */
  lemma {:induction false} BatchDelivers(d: Dict, keys: seq<string>, id: string)
    requires forall k <- keys :: k in d.at
    requires forall i, j | 0 <= i < j < |keys| :: keys[i] != keys[j]
    ensures Delivered(PayloadsOf(d, keys), id) == if id in keys then d.at[id].fields else map[]
  {
    hide Delivered, ActionOf;
    if keys == [] {
      NothingDelivered(id);
    } else {
      var init, last := keys[..|keys| - 1], keys[|keys| - 1];
      assert last in keys && last !in init;
      assert keys == init + [last];
      BatchDelivers(d, init, id);
      DeliveredSnoc(PayloadsOf(d, init), Payload(last, ActionOf(d.at[last]), d.at[last].fields), id);
    }
  }


  /** Merging back puts each id of the batch back, unless it is spent or present already. */
  lemma {:induction false} MergedAt(cfg: Config, d: Dict, batch: Dict, keys: seq<string>, id: string)
    requires forall k <- keys :: k in batch.at
    requires forall i, j | 0 <= i < j < |keys| :: keys[i] != keys[j]
    ensures var d' := MergeBack(cfg, d, batch, keys);
            if id in keys && id !in d.at && batch.at[id].retryCount + 1 <= cfg.maxRetries then
              id in d'.at && d'.at[id] == batch.at[id].(retryCount := batch.at[id].retryCount + 1)
            else (id in d'.at <==> id in d.at) && (id in d.at ==> d'.at[id] == d.at[id])
  {
    if keys != [] {
      var init, last := keys[..|keys| - 1], keys[|keys| - 1];
      assert last in keys && last !in init;
      assert keys == init + [last];
      MergedAt(cfg, d, batch, init, id);
      MergedAt(cfg, d, batch, init, last);
    }
  }

  /** The three places where fields of an id can be. */
  datatype Held = Held(delivered: Fields, flight: Option<Entry>, buffered: Option<Entry>)

  function EntryAt(d: Dict, id: string): Option<Entry> {
    if id in d.at then Some(d.at[id]) else None
  }

  function HeldOf(st: State, id: string): Held {
    Held(Delivered(st.received, id), if st.batch.Some? then EntryAt(st.batch.value, id) else None,
         EntryAt(st.entries, id))
  }

  function FieldsOf(e: Option<Entry>): Fields {
    if e.Some? then e.value.fields else map[]
  }

  /** One step, seen from one id. */
  function StepHeld(cfg: Config, h: Held, e: Event, id: string, loses: bool): Held {
    match e
    case Record(i, fields) =>
      if i == id then h.(buffered := Some(Entry(fields, false, 0)))
      else if loses then h.(buffered := None)
      else h
    case Update(i, fields) =>
      if i == id then
        var before := if h.buffered.Some? then h.buffered.value else Entry(map[], false, 0);
        h.(buffered := Some(Updated(before, fields)))
      else h
    case Begin => if loses then h.(buffered := None) else h.(flight := h.buffered, buffered := None)
    case End(true) => Held(h.delivered + FieldsOf(h.flight), None, h.buffered)
    case End(false) =>
      Held(h.delivered, None,
           if h.flight.None? || loses then h.buffered
           else Some(h.flight.value.(retryCount := h.flight.value.retryCount + 1)))
  }

  lemma RecordHeld(cfg: Config, st: State, i: string, fields: Fields, id: string)
    requires Valid(st)
    ensures HeldOf(RecordStep(cfg, st, i, fields), id)
            == StepHeld(cfg, HeldOf(st, id), Record(i, fields), id, Loses(cfg, st, Record(i, fields), id))
  {
    hide PayloadsOf, Delivered, MergeBack, Updated, Account, BeginStep;
    if IsFull(cfg, st.entries) { DropValid(st.entries); }
  }

  lemma DeliveredHeld(cfg: Config, st: State, id: string)
    requires Valid(st) && st.batch.Some?
    ensures HeldOf(EndStep(cfg, st, true), id) == StepHeld(cfg, HeldOf(st, id), End(true), id, false)
  {
    hide PayloadsOf, Delivered, MergeBack, Updated, Account, BeginStep;
    var batch := st.batch.value;
    DeliveredAppend(st.received, PayloadsOf(batch, batch.keys), id);
    BatchDelivers(batch, batch.keys, id);
  }

  lemma MergedHeld(cfg: Config, st: State, id: string)
    requires Valid(st) && st.batch.Some?
    ensures HeldOf(EndStep(cfg, st, false), id)
            == StepHeld(cfg, HeldOf(st, id), End(false), id, Loses(cfg, st, End(false), id))
  {
    hide PayloadsOf, Delivered, MergeBack, Updated, Account, BeginStep;
    MergedAt(cfg, st.entries, st.batch.value, st.batch.value.keys, id);
  }

  lemma StepIsHeld(cfg: Config, st: State, e: Event, id: string)
    requires Valid(st) && Enabled(st, e)
    ensures HeldOf(Step(cfg, st, e), id) == StepHeld(cfg, HeldOf(st, id), e, id, Loses(cfg, st, e, id))
  {
    hide RecordStep, MergeBack, Updated;
    match e
    case Record(i, fields) => RecordHeld(cfg, st, i, fields, id);
    case Update(i, fields) =>
    case Begin => if st.entries.keys == [] { assert id !in st.entries.at; }
    case End(ok) => if ok { DeliveredHeld(cfg, st, id); } else { MergedHeld(cfg, st, id); }
  }

  // ---------------------------------------------------------------- no update is lost

  function Account(h: Held): Fields {
    h.delivered + FieldsOf(h.flight) + FieldsOf(h.buffered)
  }

  function FieldsFor(e: Event, id: string): Fields {
    if e.Passes(id) then e.fields else map[]
  }

  /** Facts about one id and one step that the global state guarantees. */
  ghost predicate Local(cfg: Config, h: Held, e: Event, id: string, loses: bool) {
    match e
    case Record(i, _) => if i == id then loses == h.buffered.Some? else (loses ==> h.buffered.Some?)
    case Update(_, _) => !loses
    case Begin => h.flight.None? && (loses ==> h.buffered.Some?)
    case End(true) => !loses
    case End(false) => (loses ==> h.flight.Some?) && (h.flight.Some? && h.buffered.Some? ==> loses)
  }

  lemma StepLocal(cfg: Config, st: State, e: Event, id: string)
    requires Valid(st) && Enabled(st, e)
    ensures Local(cfg, HeldOf(st, id), e, id, Loses(cfg, st, e, id))
  {
  }

  lemma UpdatedFields(e: Entry, fields: Fields)
    ensures Updated(e, fields).fields == e.fields + fields
  {
  }

  lemma StepAccounts(cfg: Config, h: Held, e: Event, id: string)
    requires Local(cfg, h, e, id, false)
    ensures Account(StepHeld(cfg, h, e, id, false)) == Account(h) + FieldsFor(e, id)
  {
    hide Updated;
    if e.Update? && e.id == id {
      UpdatedFields(if h.buffered.Some? then h.buffered.value else Entry(map[], false, 0), e.fields);
      MergeAssociative(h.delivered + FieldsOf(h.flight), FieldsOf(h.buffered), e.fields);
    }
  }

  /** If nothing held for an id was dropped on the way, then at any moment, over any interleaving
      of calls and flushes, the fields delivered, in flight and buffered for it, merged in this
      order, are all the fields ever passed for it. */
  lemma {:induction false} NothingLost(cfg: Config, es: seq<Event>, id: string)
    requires Lossless(cfg, es, id)
    ensures Account(HeldOf(Run(cfg, es), id)) == Passed(es, id)
  {
    hide Step, Loses, HeldOf, StepHeld, Local, Account;
    if es == [] {
      NothingHeld(cfg, id);
    } else {
      var init, e := es[..|es| - 1], es[|es| - 1];
      var st := Run(cfg, init);
      NothingLost(cfg, init, id);
      if Enabled(st, e) {
        StepIsHeld(cfg, st, e, id);
        StepLocal(cfg, st, e, id);
        StepAccounts(cfg, HeldOf(st, id), e, id);
      } else {
        assert Passed(init, id) + map[] == Passed(init, id);
      }
    }
  }

  lemma NothingHeld(cfg: Config, id: string)
    ensures HeldOf(NEW_STATE, id) == Held(map[], None, None) && Account(Held(map[], None, None)) == map[]
  {
  }

  // ---------------------------------------------------------------- and exactly when

  /** Every call for the id passes some key that no other call for it passes: `mark[k]`. */
  ghost predicate Marks(es: seq<Event>, mark: seq<string>, id: string) {
    && |mark| == |es|
    && (forall k | 0 <= k < |es| && es[k].Passes(id) :: mark[k] in es[k].fields)
    && (forall j, k | 0 <= j < |es| && 0 <= k < |es| && j != k && es[j].Passes(id) && es[k].Passes(id) ::
          mark[k] !in es[j].fields)
  }

  function Places(h: Held, x: string): nat {
    (if x in h.delivered then 1 else 0) + (if x in FieldsOf(h.flight) then 1 else 0)
    + (if x in FieldsOf(h.buffered) then 1 else 0)
  }

  /** Some call's mark is in the entry. */
  ghost predicate Marked(e: Entry, es: seq<Event>, mark: seq<string>, id: string)
    requires |mark| == |es|
  {
    exists k :: 0 <= k < |es| && es[k].Passes(id) && mark[k] in e.fields
  }

  ghost predicate SomeGone(h: Held, es: seq<Event>, mark: seq<string>, id: string)
    requires |mark| == |es|
  {
    exists k :: 0 <= k < |es| && es[k].Passes(id) && Places(h, mark[k]) == 0
  }

  ghost predicate Traced(h: Held, es: seq<Event>, mark: seq<string>, id: string)
    requires |mark| == |es|
  {
    && (forall x | Places(h, x) > 0 :: x in Passed(es, id))
    && (forall k | 0 <= k < |es| && es[k].Passes(id) :: Places(h, mark[k]) <= 1)
    && (h.flight.Some? ==> Marked(h.flight.value, es, mark, id))
    && (h.buffered.Some? ==> Marked(h.buffered.value, es, mark, id))
  }

  lemma {:induction false} PassedFrom(es: seq<Event>, id: string, x: string)
    ensures x in Passed(es, id) <==> exists k :: 0 <= k < |es| && es[k].Passes(id) && x in es[k].fields
  {
    if es != [] {
      var init, e := es[..|es| - 1], es[|es| - 1];
      PassedFrom(init, id, x);
      if x in Passed(init, id) {
        var k :| 0 <= k < |init| && init[k].Passes(id) && x in init[k].fields;
        assert es[k].Passes(id) && x in es[k].fields;
      }
      if k :| 0 <= k < |es| && es[k].Passes(id) && x in es[k].fields {
        if k < |init| { assert init[k].Passes(id) && x in init[k].fields; }
      }
    }
  }

  lemma MarkedGrows(e: Entry, es: seq<Event>, mark: seq<string>, id: string, more: Event, m: string)
    requires |mark| == |es| && Marked(e, es, mark, id)
    ensures Marked(e, es + [more], mark + [m], id)
  {
    var k :| 0 <= k < |es| && es[k].Passes(id) && mark[k] in e.fields;
    assert (es + [more])[k].Passes(id) && (mark + [m])[k] in e.fields;
  }

  lemma GoneGrows(h: Held, h': Held, es: seq<Event>, mark: seq<string>, id: string, e: Event, m: string)
    requires |mark| == |es| && SomeGone(h, es, mark, id)
    requires forall k | 0 <= k < |es| && es[k].Passes(id) :: Places(h', mark[k]) <= Places(h, mark[k])
    ensures SomeGone(h', es + [e], mark + [m], id)
  {
    var k :| 0 <= k < |es| && es[k].Passes(id) && Places(h, mark[k]) == 0;
    assert (es + [e])[k].Passes(id) && Places(h', (mark + [m])[k]) == 0;
  }

  /** The entry a losing step drops. */
  function Dropped(h: Held, e: Event): Option<Entry> {
    if e.End? then h.flight else h.buffered
  }

  lemma PlacesStep(cfg: Config, h: Held, e: Event, id: string, loses: bool, x: string)
    requires Local(cfg, h, e, id, loses)
    ensures var h' := StepHeld(cfg, h, e, id, loses);
            && (x !in FieldsFor(e, id) ==> Places(h', x) <= Places(h, x))
            && (x in FieldsFor(e, id) && Places(h, x) == 0 ==> Places(h', x) == 1)
            && (loses && x !in FieldsFor(e, id) && x in FieldsOf(Dropped(h, e)) && Places(h, x) <= 1 ==>
                  Places(h', x) == 0)
  {
  }

  /** Entries after a step are old entries, with more fields, or hold the fields of the call. */
  lemma EntriesStep(cfg: Config, h: Held, e: Event, id: string, loses: bool)
    requires Local(cfg, h, e, id, loses)
    ensures var h' := StepHeld(cfg, h, e, id, loses);
            && (loses ==> Dropped(h, e).Some?)
            && (h'.flight.Some? ==>
                  (h.flight.Some? && h'.flight == h.flight) || (h.buffered.Some? && h'.flight == h.buffered))
            && (h'.buffered.Some? ==>
                 if e.Passes(id) then e.fields.Keys <= h'.buffered.value.fields.Keys
                 else (h.buffered.Some? && h'.buffered == h.buffered)
                      || (h.flight.Some? && h'.buffered.value.fields == h.flight.value.fields))
  {
  }

  lemma TracedStep(cfg: Config, h: Held, e: Event, id: string, loses: bool, es: seq<Event>, mark: seq<string>,
                   m: string)
    requires |mark| == |es| && Marks(es + [e], mark + [m], id)
    requires Local(cfg, h, e, id, loses) && Traced(h, es, mark, id)
    ensures var h' := StepHeld(cfg, h, e, id, loses);
            && Traced(h', es + [e], mark + [m], id)
            && (loses || SomeGone(h, es, mark, id) ==> SomeGone(h', es + [e], mark + [m], id))
  {
    hide Local, StepHeld, Places, Passed, Marked, SomeGone;
    var h' := StepHeld(cfg, h, e, id, loses);
    var es', mark' := es + [e], mark + [m];
    NewMark(es, mark, id, e, m);
    forall x ensures Places(h', x) > 0 ==> x in Passed(es', id) {
      PlacesStep(cfg, h, e, id, loses, x);
      PassedSnoc(es, e, id, x);
    }
    forall k | 0 <= k < |es| && es[k].Passes(id) ensures Places(h', mark[k]) <= Places(h, mark[k]) {
      PlacesStep(cfg, h, e, id, loses, mark[k]);
    }
    forall k | 0 <= k < |es'| && es'[k].Passes(id) ensures Places(h', mark'[k]) <= 1 {
      if k < |es| { assert mark'[k] == mark[k] && es[k].Passes(id); } else { PlacesStep(cfg, h, e, id, loses, m); }
    }
    EntriesMarked(cfg, h, e, id, loses, es, mark, m);
    if SomeGone(h, es, mark, id) { GoneGrows(h, h', es, mark, id, e, m); }
    if loses { LossGone(cfg, h, e, id, es, mark, m); }
  }

  lemma PassedSnoc(es: seq<Event>, e: Event, id: string, x: string)
    ensures x in Passed(es + [e], id) <==> x in Passed(es, id) || x in FieldsFor(e, id)
  {
    assert (es + [e])[..|es|] == es;
  }

  lemma NewMark(es: seq<Event>, mark: seq<string>, id: string, e: Event, m: string)
    requires |mark| == |es| && Marks(es + [e], mark + [m], id)
    ensures Marks(es, mark, id)
    ensures forall k | 0 <= k < |es| && es[k].Passes(id) :: mark[k] !in FieldsFor(e, id)
    ensures e.Passes(id) ==> m in e.fields && m !in Passed(es, id)
  {
    var es', mark' := es + [e], mark + [m];
    forall k | 0 <= k < |es| ensures es'[k] == es[k] && mark'[k] == mark[k] {}
    assert es'[|es|] == e && mark'[|es|] == m;
    PassedFrom(es, id, m);
  }

  lemma EntriesMarked(cfg: Config, h: Held, e: Event, id: string, loses: bool, es: seq<Event>, mark: seq<string>,
                      m: string)
    requires |mark| == |es| && Local(cfg, h, e, id, loses) && Traced(h, es, mark, id)
    requires e.Passes(id) ==> m in e.fields
    ensures var h' := StepHeld(cfg, h, e, id, loses);
            && (h'.flight.Some? ==> Marked(h'.flight.value, es + [e], mark + [m], id))
            && (h'.buffered.Some? ==> Marked(h'.buffered.value, es + [e], mark + [m], id))
  {
    hide Local, StepHeld, Places;
    var h' := StepHeld(cfg, h, e, id, loses);
    EntriesStep(cfg, h, e, id, loses);
    if h.flight.Some? { MarkedGrows(h.flight.value, es, mark, id, e, m); }
    if h.buffered.Some? { MarkedGrows(h.buffered.value, es, mark, id, e, m); }
    if h'.buffered.Some? && e.Passes(id) {
      assert (es + [e])[|es|].Passes(id) && (mark + [m])[|es|] in h'.buffered.value.fields;
    }
  }

  lemma LossGone(cfg: Config, h: Held, e: Event, id: string, es: seq<Event>, mark: seq<string>, m: string)
    requires |mark| == |es| && Local(cfg, h, e, id, true) && Traced(h, es, mark, id)
    requires forall k | 0 <= k < |es| && es[k].Passes(id) :: mark[k] !in FieldsFor(e, id)
    ensures SomeGone(StepHeld(cfg, h, e, id, true), es + [e], mark + [m], id)
  {
    hide Local, StepHeld, Places;
    EntriesStep(cfg, h, e, id, true);
    assert Marked(Dropped(h, e).value, es, mark, id);
    var k :| 0 <= k < |es| && es[k].Passes(id) && mark[k] in Dropped(h, e).value.fields;
    PlacesStep(cfg, h, e, id, true, mark[k]);
    assert (es + [e])[k].Passes(id) && Places(StepHeld(cfg, h, e, id, true), (mark + [m])[k]) == 0;
  }

  lemma {:induction false} RunTraced(cfg: Config, es: seq<Event>, mark: seq<string>, id: string)
    requires Marks(es, mark, id)
    ensures Traced(HeldOf(Run(cfg, es), id), es, mark, id)
    ensures !Lossless(cfg, es, id) ==> SomeGone(HeldOf(Run(cfg, es), id), es, mark, id)
  {
    hide Step, Loses, HeldOf, StepHeld, Local, Places, Passed, SomeGone, Marked, Marks;
    MarksLength(es, mark, id);
    if es == [] {
      NothingHeld(cfg, id);
      NothingTraced(cfg, id);
    } else {
      var n := |es| - 1;
      var init, e := es[..n], es[n];
      assert init + [e] == es && mark[..n] + [mark[n]] == mark;
      NewMark(init, mark[..n], id, e, mark[n]);
      RunTraced(cfg, init, mark[..n], id);
      var st := Run(cfg, init);
      if Enabled(st, e) {
        StepIsHeld(cfg, st, e, id);
        StepLocal(cfg, st, e, id);
        TracedStep(cfg, HeldOf(st, id), e, id, Loses(cfg, st, e, id), init, mark[..n], mark[n]);
      } else {
        DisabledTraced(cfg, HeldOf(st, id), init, e, mark[..n], mark[n], id);
        DisabledKeeps(cfg, st, e, id);
      }
    }
  }

  lemma MarksLength(es: seq<Event>, mark: seq<string>, id: string)
    requires Marks(es, mark, id)
    ensures |mark| == |es|
  {
  }

  lemma DisabledKeeps(cfg: Config, st: State, e: Event, id: string)
    requires !Enabled(st, e)
    ensures !Loses(cfg, st, e, id) && !e.Passes(id)
  {
  }

  lemma DisabledTraced(cfg: Config, h: Held, es: seq<Event>, e: Event, mark: seq<string>, m: string, id: string)
    requires |mark| == |es| && Traced(h, es, mark, id) && (e.Begin? || e.End?)
    ensures Traced(h, es + [e], mark + [m], id)
    ensures SomeGone(h, es, mark, id) ==> SomeGone(h, es + [e], mark + [m], id)
  {
    hide Places, Passed, Marked, SomeGone;
    forall x ensures x in Passed(es + [e], id) <==> x in Passed(es, id) { PassedSnoc(es, e, id, x); }
    if h.flight.Some? { MarkedGrows(h.flight.value, es, mark, id, e, m); }
    if h.buffered.Some? { MarkedGrows(h.buffered.value, es, mark, id, e, m); }
    if SomeGone(h, es, mark, id) { GoneGrows(h, h, es, mark, id, e, m); }
  }

  lemma NothingTraced(cfg: Config, id: string)
    ensures Traced(Held(map[], None, None), [], [], id) && Lossless(cfg, [], id)
  {
  }

  /** For calls that each pass something of their own, everything passed for an id is accounted
      for exactly when no step dropped what was held for it. */
  lemma NothingLostExactly(cfg: Config, es: seq<Event>, mark: seq<string>, id: string)
    requires Marks(es, mark, id)
    ensures Account(HeldOf(Run(cfg, es), id)) == Passed(es, id) <==> Lossless(cfg, es, id)
  {
    hide Run, Marks, HeldOf, Passed;
    if Lossless(cfg, es, id) {
      NothingLost(cfg, es, id);
    } else {
      MarksLength(es, mark, id);
      RunTraced(cfg, es, mark, id);
      var h := HeldOf(Run(cfg, es), id);
      var k :| 0 <= k < |es| && es[k].Passes(id) && Places(h, mark[k]) == 0;
      MarkPassed(es, mark, id, k);
      assert mark[k] !in Account(h);
    }
  }

  lemma MarkPassed(es: seq<Event>, mark: seq<string>, id: string, k: nat)
    requires Marks(es, mark, id) && k < |es| && es[k].Passes(id)
    ensures mark[k] in Passed(es, id)
  {
    PassedFrom(es, id, mark[k]);
  }

  // ---------------------------------------------------------------- re-sending is bounded

  /** Counted along the history: how many failed flushes the entry now in flight, and the one now
      buffered, have been part of. Whether there is such an entry is read off the state. */
  function FailedSends(cfg: Config, es: seq<Event>, id: string): (nat, nat) {
    if es == [] then (0, 0)
    else
      var init, e := es[..|es| - 1], es[|es| - 1];
      var (flight, buffered) := FailedSends(cfg, init, id);
      var h := HeldOf(Run(cfg, init), id);
      if !Enabled(Run(cfg, init), e) then (flight, buffered)
      else match e
        case Record(i, _) => (flight, if i == id then 0 else buffered)
        case Update(i, _) => (flight, if i == id && h.buffered.None? then 0 else buffered)
        case Begin => (buffered, 0)
        case End(true) => (0, buffered)
        case End(false) => (0, if h.flight.Some? && h.buffered.None? then flight + 1 else buffered)
  }

  /** The retry count is that number, and an entry is kept only while it is at most `max_retries`:
      in every run an entry is sent again at most so often. */
  lemma {:induction false} ResendBounded(cfg: Config, es: seq<Event>, id: string)
    ensures var h, sends := HeldOf(Run(cfg, es), id), FailedSends(cfg, es, id);
            && (h.flight.Some? ==> h.flight.value.retryCount == sends.0 <= cfg.maxRetries)
            && (h.buffered.Some? ==> h.buffered.value.retryCount == sends.1 <= cfg.maxRetries)
  {
    hide Step, Loses, HeldOf, StepHeld;
    if es == [] {
      NothingHeld(cfg, id);
    } else {
      var init, e := es[..|es| - 1], es[|es| - 1];
      var st := Run(cfg, init);
      ResendBounded(cfg, init, id);
      if Enabled(st, e) {
        StepIsHeld(cfg, st, e, id);
        StepLocal(cfg, st, e, id);
        StepRetries(cfg, st, e, id);
      }
    }
  }

  lemma StepRetries(cfg: Config, st: State, e: Event, id: string)
    requires Valid(st) && Enabled(st, e)
    ensures var h := HeldOf(st, id);
            var h' := StepHeld(cfg, h, e, id, Loses(cfg, st, e, id));
            && (e.End? ==> h'.flight.None?)
            && (e.Begin? ==> h'.buffered.None? && (h'.flight.Some? ==> h'.flight == h.buffered))
            && (e.Record? || e.Update? ==> h'.flight == h.flight)
            && (h'.buffered.Some? ==>
                  if e.Passes(id) then
                    h'.buffered.value.retryCount
                    == if e.Update? && h.buffered.Some? then h.buffered.value.retryCount else 0
                  else if e == End(false) && h.flight.Some? && h.buffered.None? then
                    h'.buffered.value.retryCount == h.flight.value.retryCount + 1 <= cfg.maxRetries
                  else h.buffered.Some? && h'.buffered == h.buffered)
  {
  }

  // ---------------------------------------------------------------- an input that loses an update

  const RECREATED: seq<Event> :=
    [Record("r", map["user" := Num(1.0)]), Begin, Event.Update("r", map["cost" := Num(2.0)]), End(false)]

  const USER_ENTRY := Entry(map["user" := Num(1.0)], false, 0)
  const FIRST := Dict(["r"], map["r" := USER_ENTRY])

  lemma RunSnoc(cfg: Config, es: seq<Event>, e: Event)
    requires Enabled(Run(cfg, es), e)
    ensures Run(cfg, es + [e]) == Step(cfg, Run(cfg, es), e)
  {
    assert (es + [e])[..|es|] == es;
  }

  lemma RecordedFirst(cfg: Config)
    requires cfg.maxBuffer > 0
    ensures Step(cfg, NEW_STATE, RECREATED[0]) == State(FIRST, None, [])
  {
    assert [] + ["r"] == ["r"];
  }

  lemma SwappedOut(cfg: Config)
    requires cfg.hasGateway
    ensures BeginStep(cfg, State(FIRST, None, [])) == State(EMPTY, Some(FIRST), [])
  {
    assert !HasBadStatus(USER_ENTRY);
  }

  /** Whatever is created under the id meanwhile stays as it is. */
  lemma NotMerged(cfg: Config, d: Dict)
    requires "r" in d.at
    ensures EndStep(cfg, State(d, Some(FIRST), []), false) == State(d, None, [])
  {
    hide MergeOne;
    assert FIRST.keys[..0] == [] && FIRST.keys[0] == "r" && FIRST.at["r"] == USER_ENTRY;
    assert MergeBack(cfg, d, FIRST, FIRST.keys[..0]) == d;
    KeepsPresent(cfg, d, "r", USER_ENTRY);
  }

  lemma KeepsPresent(cfg: Config, d: Dict, id: string, e: Entry)
    requires id in d.at
    ensures MergeOne(cfg, d, id, e) == d
  {
  }

  lemma UpdatedMeanwhile()
    ensures var d := UpdateStep(State(EMPTY, Some(FIRST), []), "r", map["cost" := Num(2.0)]).entries;
            "r" in d.at && d.at["r"].fields == map["cost" := Num(2.0)]
            && UpdateStep(State(EMPTY, Some(FIRST), []), "r", map["cost" := Num(2.0)]) == State(d, Some(FIRST), [])
  {
    hide Updated;
    var none: Fields := map[];
    UpdatedFields(Entry(none, false, 0), map["cost" := Num(2.0)]);
    assert none + map["cost" := Num(2.0)] == map["cost" := Num(2.0)];
  }

  lemma RunRecreated(cfg: Config)
    requires cfg.hasGateway && cfg.maxBuffer > 0
    ensures var st := Run(cfg, RECREATED);
            && st.batch.None? && st.received == []
            && "r" in st.entries.at && st.entries.at["r"].fields == map["cost" := Num(2.0)]
  {
    var none: seq<Event>, es := [], RECREATED;
    assert Run(cfg, none) == NEW_STATE;
    hide Run, RecordStep, UpdateStep, BeginStep, EndStep;
    assert none + [es[0]] == [es[0]] && [es[0]] + [es[1]] == [es[0], es[1]];
    assert [es[0], es[1]] + [es[2]] == [es[0], es[1], es[2]] && [es[0], es[1], es[2]] + [es[3]] == es;
    RunSnoc(cfg, none, es[0]);
    RecordedFirst(cfg);
    RunSnoc(cfg, [es[0]], es[1]);
    SwappedOut(cfg);
    RunSnoc(cfg, [es[0], es[1]], es[2]);
    UpdatedMeanwhile();
    RunSnoc(cfg, [es[0], es[1], es[2]], es[3]);
    NotMerged(cfg, Run(cfg, [es[0], es[1], es[2]]).entries);
  }

  /** An id is updated while its own batch is in flight, and that flush fails: the entry created
      by the update stays, and the fields recorded first are gone, although retries remain. */
  lemma FailedFlushLosesRecreated(cfg: Config)
    requires cfg.hasGateway && cfg.maxBuffer > 0 && cfg.maxRetries > 0
    ensures "user" in Passed(RECREATED, "r") && "user" !in Account(HeldOf(Run(cfg, RECREATED), "r"))
  {
    RunRecreated(cfg);
    hide Run, Passed;
    PassedFrom(RECREATED, "r", "user");
    assert RECREATED[0].Passes("r");
  }

  const BAD_STATUS: seq<Event> :=
    [Record("a", map["user" := Num(1.0)]), Record("b", map["status" := Other("ok")]), Begin]

  lemma Recorded(cfg: Config, st: State, id: string, fields: Fields)
    requires cfg.maxBuffer > |st.entries.keys|
    ensures var d := RecordStep(cfg, st, id, fields).entries;
            && |d.keys| <= |st.entries.keys| + 1 && (id !in st.entries.at ==> id in d.keys)
            && d.at == st.entries.at[id := Entry(fields, false, 0)]
    ensures RecordStep(cfg, st, id, fields) == st.(entries := RecordStep(cfg, st, id, fields).entries)
  {
  }

  lemma BadBatch(cfg: Config, st: State, id: string)
    requires id in st.entries.keys && id in st.entries.at && HasBadStatus(st.entries.at[id])
    requires st.batch.None? && st.received == []
    ensures BeginStep(cfg, st) == NEW_STATE
  {
  }

  lemma BadStatus()
    ensures HasBadStatus(Entry(map["status" := Other("ok")], false, 0))
  {
  }

  lemma RunBadStatus(cfg: Config)
    requires cfg.maxBuffer > 1
    ensures Run(cfg, BAD_STATUS) == NEW_STATE
  {
    var none: seq<Event>, es := [], BAD_STATUS;
    assert Run(cfg, none) == NEW_STATE;
    hide Run, RecordStep, BeginStep, HasBadStatus;
    assert none + [es[0]] == [es[0]] && [es[0]] + [es[1]] == [es[0], es[1]] && [es[0], es[1]] + [es[2]] == es;
    RunSnoc(cfg, none, es[0]);
    Recorded(cfg, NEW_STATE, "a", es[0].fields);
    RunSnoc(cfg, [es[0]], es[1]);
    Recorded(cfg, Run(cfg, [es[0]]), "b", es[1].fields);
    RunSnoc(cfg, [es[0], es[1]], es[2]);
    BadStatus();
    BadBatch(cfg, Run(cfg, [es[0], es[1]]), "b");
  }

  /** One entry whose status cannot be compared with a number: building the payloads raises after
      the dictionary has been swapped out, and the other entries of the batch are gone with it. */
  lemma BadStatusLosesBatch(cfg: Config)
    requires cfg.maxBuffer > 1
    ensures "user" in Passed(BAD_STATUS, "a") && HeldOf(Run(cfg, BAD_STATUS), "a") == Held(map[], None, None)
  {
    RunBadStatus(cfg);
    hide Run, Passed;
    NothingHeld(cfg, "a");
    PassedFrom(BAD_STATUS, "a", "user");
    assert BAD_STATUS[0].Passes("a");
  }
}
