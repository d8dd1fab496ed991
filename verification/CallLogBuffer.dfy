/**
 `CallLogBuffer` (services/calllog_buffer.py). A flush swaps the dictionary out, waits for the
 gateway, and merges the batch back if the gateway failed, so it is two steps between which
 other calls run.
 */
module CallLogBuffer {
  import opened Wrappers

  /** Field values: None, numbers, and values that cannot be compared with a number. */
  datatype Value = Null | Num(n: real) | Other(s: string)

  type Fields = map<string, Value>

  datatype Entry = Entry(fields: Fields, hasBilling: bool, retryCount: nat)

  /** Python's insertion-ordered dictionary. */
  datatype Dict = Dict(keys: seq<string>, at: map<string, Entry>) {
    ghost predicate Valid() {
      && (forall k :: k in keys <==> k in at)
      && (forall i, j | 0 <= i < j < |keys| :: keys[i] != keys[j])
    }
  }

  const EMPTY := Dict([], map[])

  function Put(d: Dict, id: string, e: Entry): Dict {
    Dict(if id in d.at then d.keys else d.keys + [id], d.at[id := e])
  }

  /** `del` of the first key. */
  function DropOldest(d: Dict): Dict
    requires d.keys != []
  {
    Dict(d.keys[1..], d.at - {d.keys[0]})
  }

  datatype Action = Create | Complete | Update

  datatype Payload = Payload(id: string, action: Action, fields: Fields)

  function Get(m: Fields, key: string, default: Value): Value {
    if key in m then m[key] else default
  }

  function ActionOf(e: Entry): Action {
    if "status" !in e.fields then Create
    else if e.fields["status"].Num? && e.fields["status"].n >= 200.0 && !e.hasBilling then Update
    else if e.hasBilling then Complete
    else Create
  }

  function PayloadsOf(d: Dict, keys: seq<string>): seq<Payload>
    requires forall k <- keys :: k in d.at
  {
    if keys == [] then []
    else
      var last := keys[|keys| - 1];
      assert last in keys;
      PayloadsOf(d, keys[..|keys| - 1]) + [Payload(last, ActionOf(d.at[last]), d.at[last].fields)]
  }

  lemma NoPayloads(d: Dict)
    ensures PayloadsOf(d, []) == []
  {
  }

  lemma PayloadsSnoc(d: Dict, k: nat)
    requires d.Valid() && k < |d.keys|
    ensures (forall key <- d.keys[..k] :: key in d.at) && (forall key <- d.keys[..k + 1] :: key in d.at)
    ensures var e := d.at[d.keys[k]];
            PayloadsOf(d, d.keys[..k + 1]) == PayloadsOf(d, d.keys[..k]) + [Payload(d.keys[k], ActionOf(e), e.fields)]
  {
    assert d.keys[..k + 1][..k] == d.keys[..k];
  }

  // ---------------------------------------------------------------- the steps

  datatype Config = Config(maxBuffer: nat, maxRetries: nat, hasGateway: bool)

  /** `batch` is what a flush in progress holds; `received` is what the gateway has accepted. */
  datatype State = State(entries: Dict, batch: Option<Dict>, received: seq<Payload>)

  const NEW_STATE := State(EMPTY, None, [])

  ghost predicate Valid(st: State) {
    st.entries.Valid() && (st.batch.Some? ==> st.batch.value.Valid())
  }

  predicate IsFull(cfg: Config, d: Dict) {
    |d.keys| >= cfg.maxBuffer && d.keys != []
  }

  function RecordStep(cfg: Config, st: State, id: string, fields: Fields): State {
    var room := if IsFull(cfg, st.entries) then DropOldest(st.entries) else st.entries;
    st.(entries := Put(room, id, Entry(fields, false, 0)))
  }

  function Updated(e: Entry, fields: Fields): Entry {
    var merged := e.fields + fields;
    var cost := Get(fields, "cost", Get(merged, "cost", Num(0.0)));
    var status := Get(fields, "status", Get(merged, "status", Null));
    Entry(merged, e.hasBilling || (cost.Num? && cost.n > 0.0 && status == Num(200.0)), e.retryCount)
  }

  function UpdateStep(st: State, id: string, fields: Fields): State {
    var e := if id in st.entries.at then st.entries.at[id] else Entry(map[], false, 0);
    st.(entries := Put(st.entries, id, Updated(e, fields)))
  }

  /** The comparison of the status with 200 raises. */
  predicate HasBadStatus(e: Entry) {
    "status" in e.fields && e.fields["status"].Other?
  }

  predicate CanSend(d: Dict) {
    forall k <- d.keys :: k in d.at ==> !HasBadStatus(d.at[k])
  }

  /** The first half of a flush: swap the dictionary out. Without a gateway the batch is dropped,
      and also when making a payload raises. */
  function BeginStep(cfg: Config, st: State): State {
    if st.entries.keys == [] then st
    else st.(entries := EMPTY, batch := if cfg.hasGateway && CanSend(st.entries) then Some(st.entries) else None)
  }

  /** Merging one entry of a failed batch back. */
  function MergeOne(cfg: Config, d: Dict, id: string, e: Entry): Dict {
    if e.retryCount + 1 <= cfg.maxRetries && id !in d.at then Put(d, id, e.(retryCount := e.retryCount + 1)) else d
  }

  function MergeBack(cfg: Config, d: Dict, batch: Dict, keys: seq<string>): Dict
    requires forall k <- keys :: k in batch.at
  {
    if keys == [] then d
    else
      var last := keys[|keys| - 1];
      assert last in keys;
      MergeOne(cfg, MergeBack(cfg, d, batch, keys[..|keys| - 1]), last, batch.at[last])
  }

  /** The second half: the gateway has answered. */
  function EndStep(cfg: Config, st: State, ok: bool): State
    requires st.batch.Some? && st.batch.value.Valid()
  {
    var batch := st.batch.value;
    if ok then State(st.entries, None, st.received + PayloadsOf(batch, batch.keys))
    else State(MergeBack(cfg, st.entries, batch, batch.keys), None, st.received)
  }

  // ---------------------------------------------------------------- the buffer

  class Buffer {
    const cfg: Config
    var entries: Dict
    var batch: Option<Dict>
    /** Model of the remote side: every payload the gateway has accepted, in order. */
    var received: seq<Payload>

    function Value(): State
      reads this
    {
      State(entries, batch, received)
    }

    constructor (cfg: Config)
      ensures Value() == NEW_STATE && this.cfg == cfg
    {
      this.cfg := cfg;
      entries, batch, received := EMPTY, None, [];
    }

    method Record(id: string, fields: Fields)
      modifies this`entries
      ensures Value() == RecordStep(cfg, old(Value()), id, fields)
    {
      if |entries.keys| >= cfg.maxBuffer && entries.keys != [] {
        entries := DropOldest(entries);
      }
      entries := Put(entries, id, Entry(fields, false, 0));
    }

    method Update(id: string, fields: Fields)
      modifies this`entries
      ensures Value() == UpdateStep(old(Value()), id, fields)
    {
      var entry := Entry(map[], false, 0);
      if id in entries.at {
        entry := entries.at[id];
      }
      entry := entry.(fields := entry.fields + fields);
      var cost := Get(fields, "cost", Get(entry.fields, "cost", Num(0.0)));
      var status := Get(fields, "status", Get(entry.fields, "status", Null));
      if cost.Num? && cost.n > 0.0 && status == Num(200.0) {
        entry := entry.(hasBilling := true);
      }
      entries := Put(entries, id, entry);
    }

    /** Up to the call of the gateway, or to the exception; returns the payloads to send, if any. */
    method BeginFlush() returns (payloads: seq<Payload>)
      requires Valid(Value()) && batch.None?
      modifies this`entries, this`batch
      ensures Value() == BeginStep(cfg, old(Value()))
      ensures payloads == if batch.Some? then PayloadsOf(old(entries), old(entries).keys) else []
    {
      hide ActionOf, HasBadStatus, Put, PayloadsOf;
      payloads := [];
      if entries.keys == [] {
        return;
      }
      var swapped := entries;
      NoPayloads(swapped);
      entries := EMPTY;
      for k := 0 to |swapped.keys|
        invariant forall key <- swapped.keys[..k] :: key in swapped.at
        invariant forall key <- swapped.keys[..k] :: !HasBadStatus(swapped.at[key])
        invariant payloads == PayloadsOf(swapped, swapped.keys[..k])
        invariant entries == EMPTY && batch == old(batch) && received == old(received)
      {
        var e := swapped.at[swapped.keys[k]];
        if HasBadStatus(e) {
          assert swapped.keys[k] in swapped.keys;
          return [];
        }
        PayloadsSnoc(swapped, k);
        payloads := payloads + [Payload(swapped.keys[k], ActionOf(e), e.fields)];
      }
      assert swapped.keys[..|swapped.keys|] == swapped.keys;
      if !cfg.hasGateway {
        return [];
      }
      batch := Some(swapped);
    }

    /** After the gateway has answered. */
    method EndFlush(ok: bool)
      requires Valid(Value()) && batch.Some?
      modifies this`entries, this`batch, this`received
      ensures Value() == EndStep(cfg, old(Value()), ok)
    {
      hide PayloadsOf, ActionOf, CanSend, Put;
      var sent := batch.value;
      if ok {
        received := received + PayloadsOf(sent, sent.keys);
      } else {
        for k := 0 to |sent.keys|
          invariant forall key <- sent.keys[..k] :: key in sent.at
          invariant entries == MergeBack(cfg, old(entries), sent, sent.keys[..k])
          invariant batch == old(batch) && received == old(received)
        {
          assert sent.keys[..k + 1][..k] == sent.keys[..k];
          var id := sent.keys[k];
          var e := sent.at[id].(retryCount := sent.at[id].retryCount + 1);
          if e.retryCount <= cfg.maxRetries {
            if id !in entries.at {
              entries := Put(entries, id, e);
            }
          }
        }
        assert sent.keys[..|sent.keys|] == sent.keys;
      }
      batch := None;
    }
  }
}
