/**
 `SdkClientPool` (services/sdk_clients.py): two bounded pools of clients, each an ordered
 dictionary used as an LRU map. A client is identified by the number of clients created before
 it in its pool.
 */
module SdkClients {

  type Key = (string, string)

  /** `order` with `clients` is Python's OrderedDict: oldest key first. */
  datatype Pool = Pool(order: seq<Key>, clients: map<Key, nat>, created: nat)

  const NEW_POOL := Pool([], map[], 0)

  function Without(ks: seq<Key>, k: Key): seq<Key> {
    if ks == [] then []
    else Without(ks[..|ks| - 1], k) + if ks[|ks| - 1] == k then [] else [ks[|ks| - 1]]
  }

  /** One request: the pool afterwards, and the client returned. */
  function Request(max: nat, p: Pool, k: Key): (Pool, nat) {
    if k in p.clients then (p.(order := Without(p.order, k) + [k]), p.clients[k])
    else
      var order, clients := p.order + [k], p.clients[k := p.created];
      if |order| > max then (Pool(order[1..], clients - {order[0]}, p.created + 1), p.created)
      else (Pool(order, clients, p.created + 1), p.created)
  }

  class SdkClientPool {
    const maxSize: nat
    var openai: Pool
    var anthropic: Pool

    constructor (maxSize: nat)
      ensures this.maxSize == maxSize && openai == NEW_POOL && anthropic == NEW_POOL
    {
      this.maxSize := maxSize;
      openai, anthropic := NEW_POOL, NEW_POOL;
    }

    method GetOpenai(baseUrl: string, apiKey: string) returns (client: nat)
      modifies this`openai
      ensures (openai, client) == Request(maxSize, old(openai), (baseUrl, apiKey))
    {
      var key := (baseUrl, apiKey);
      if key in openai.clients {
        openai := openai.(order := Without(openai.order, key) + [key]);
        return openai.clients[key];
      }
      client := openai.created;
      openai := Pool(openai.order + [key], openai.clients[key := client], client + 1);
      if |openai.order| > maxSize {
        openai := openai.(order := openai.order[1..], clients := openai.clients - {openai.order[0]});
      }
    }

    method GetAnthropic(baseUrl: string, apiKey: string) returns (client: nat)
      modifies this`anthropic
      ensures (anthropic, client) == Request(maxSize, old(anthropic), (baseUrl, apiKey))
    {
      var key := (baseUrl, apiKey);
      if key in anthropic.clients {
        anthropic := anthropic.(order := Without(anthropic.order, key) + [key]);
        return anthropic.clients[key];
      }
      client := anthropic.created;
      anthropic := Pool(anthropic.order + [key], anthropic.clients[key := client], client + 1);
      if |anthropic.order| > maxSize {
        anthropic := anthropic.(order := anthropic.order[1..], clients := anthropic.clients - {anthropic.order[0]});
      }
    }
  }

  // ---------------------------------------------------------------- histories

  function Run(max: nat, ks: seq<Key>): Pool {
    if ks == [] then NEW_POOL else Request(max, Run(max, ks[..|ks| - 1]), ks[|ks| - 1]).0
  }

  /** The client a request for k gets after a history. */
  function ClientFor(max: nat, ks: seq<Key>, k: Key): nat {
    Request(max, Run(max, ks), k).1
  }

  /** The distinct keys of a history, least recently requested first. */
  function Recent(ks: seq<Key>): seq<Key> {
    if ks == [] then [] else Without(Recent(ks[..|ks| - 1]), ks[|ks| - 1]) + [ks[|ks| - 1]]
  }

  function LastOf(ks: seq<Key>, n: nat): seq<Key> {
    if |ks| <= n then ks else ks[|ks| - n..]
  }

  ghost predicate Distinct(ks: seq<Key>) {
    forall i, j | 0 <= i < j < |ks| :: ks[i] != ks[j]
  }

  ghost predicate Valid(p: Pool) {
    && Distinct(p.order)
    && (forall k :: k in p.clients <==> k in p.order)
    && (forall k <- p.clients :: p.clients[k] < p.created)
  }

  // ---------------------------------------------------------------- removing a key

  lemma DistinctSnoc(ks: seq<Key>, k: Key)
    ensures Distinct(ks + [k]) <==> Distinct(ks) && k !in ks
  {
    var all := ks + [k];
    if Distinct(all) {
      assert forall i | 0 <= i < |ks| :: all[i] == ks[i] && all[i] != all[|ks|];
    }
  }

  lemma {:induction false} WithoutIs(ks: seq<Key>, k: Key)
    ensures forall x :: x in Without(ks, k) <==> x in ks && x != k
    ensures k !in ks ==> Without(ks, k) == ks
    ensures Distinct(ks) ==> Distinct(Without(ks, k)) && |Without(ks, k)| == |ks| - if k in ks then 1 else 0
  {
    hide Distinct;
    if ks == [] {
      NothingDistinct();
    } else {
      var init, last := ks[..|ks| - 1], ks[|ks| - 1];
      assert ks == init + [last];
      WithoutIs(init, k);
      DistinctSnoc(init, last);
      DistinctSnoc(Without(init, k), last);
      assert Without(init, k) + [] == Without(init, k);
    }
  }

  lemma NothingDistinct()
    ensures Distinct([])
  {
  }

  lemma {:induction false} WithoutAppend(xs: seq<Key>, ys: seq<Key>, k: Key)
    ensures Without(xs + ys, k) == Without(xs, k) + Without(ys, k)
  {
    if ys == [] {
      assert xs + ys == xs;
    } else {
      assert (xs + ys)[..|xs + ys| - 1] == xs + ys[..|ys| - 1];
      WithoutAppend(xs, ys[..|ys| - 1], k);
    }
  }

  lemma DistinctParts(xs: seq<Key>, ys: seq<Key>)
    requires Distinct(xs + ys)
    ensures Distinct(ys) && forall k <- ys :: k !in xs
  {
    var all := xs + ys;
    assert forall i | 0 <= i < |ys| :: all[|xs| + i] == ys[i];
    forall i, j | 0 <= i < |xs| && 0 <= j < |ys| ensures xs[i] != ys[j] {
      assert all[i] == xs[i] && all[|xs| + j] == ys[j];
    }
  }

  lemma {:induction false} RecentDistinct(ks: seq<Key>)
    ensures Distinct(Recent(ks))
  {
    if ks != [] {
      RecentDistinct(ks[..|ks| - 1]);
      WithoutIs(Recent(ks[..|ks| - 1]), ks[|ks| - 1]);
      DistinctSnoc(Without(Recent(ks[..|ks| - 1]), ks[|ks| - 1]), ks[|ks| - 1]);
    }
  }

  // ---------------------------------------------------------------- the pool is exactly LRU

  lemma RequestValid(max: nat, p: Pool, k: Key)
    requires Valid(p)
    ensures Valid(Request(max, p, k).0) && p.created <= Request(max, p, k).0.created
  {
    hide Without, Distinct;
    var order := p.order + [k];
    if k in p.clients {
      WithoutIs(p.order, k);
      DistinctSnoc(Without(p.order, k), k);
    } else {
      DistinctSnoc(p.order, k);
      if |order| > max { TailDistinct(order); }
    }
  }

  lemma TailDistinct(ks: seq<Key>)
    requires ks != [] && Distinct(ks)
    ensures Distinct(ks[1..]) && forall x :: x in ks[1..] <==> x in ks && x != ks[0]
  {
    assert ks == [ks[0]] + ks[1..];
    DistinctParts([ks[0]], ks[1..]);
    assert ks[0] in [ks[0]];
  }

  lemma {:induction false} RunValid(max: nat, ks: seq<Key>)
    ensures Valid(Run(max, ks))
  {
    if ks != [] {
      RunValid(max, ks[..|ks| - 1]);
      RequestValid(max, Run(max, ks[..|ks| - 1]), ks[|ks| - 1]);
    }
  }

  lemma LastOfAppend(pre: seq<Key>, ks: seq<Key>, n: nat)
    requires |ks| == n || (|ks| < n && pre == [])
    ensures LastOf(pre + ks, n) == ks
  {
    assert [] + ks == ks;
  }

  lemma OrderStep(max: nat, recent: seq<Key>, order: seq<Key>, k: Key)
    requires Distinct(recent) && order == LastOf(recent, max)
    ensures LastOf(Without(recent, k) + [k], max)
            == if k in order then Without(order, k) + [k]
               else if |order| + 1 > max then (order + [k])[1..] else order + [k]
  {
    var pre := recent[..|recent| - |order|];
    assert recent == pre + order;
    OrderStepAt(max, pre, order, k);
  }

  lemma OrderStepAt(max: nat, pre: seq<Key>, order: seq<Key>, k: Key)
    requires Distinct(pre + order) && (|order| == max || (|order| < max && pre == []))
    ensures LastOf(Without(pre + order, k) + [k], max)
            == if k in order then Without(order, k) + [k]
               else if |order| + 1 > max then (order + [k])[1..] else order + [k]
  {
    hide LastOf, Without, Distinct;
    DistinctParts(pre, order);
    WithoutAppend(pre, order, k);
    WithoutIs(pre, k);
    WithoutIs(order, k);
    if k in order {
      assert pre + Without(order, k) + [k] == pre + (Without(order, k) + [k]);
      LastOfAppend(pre, Without(order, k) + [k], max);
    } else {
      var all, pre' := order + [k], Without(pre, k);
      if |order| + 1 > max {
        assert pre' + order + [k] == (pre' + [all[0]]) + all[1..];
        LastOfAppend(pre' + [all[0]], all[1..], max);
      } else {
        assert pre' + order + [k] == pre' + all;
        LastOfAppend(pre', all, max);
      }
    }
  }

  /** After any history of requests, and for any bound, the pool holds exactly the most recently
      requested distinct keys, in recency order. */
  lemma {:induction false} PoolIsLru(max: nat, ks: seq<Key>)
    ensures Run(max, ks).order == LastOf(Recent(ks), max)
    ensures forall k :: k in Run(max, ks).clients <==> k in LastOf(Recent(ks), max)
  {
    RunValid(max, ks);
    if ks != [] {
      var init, k := ks[..|ks| - 1], ks[|ks| - 1];
      PoolIsLru(max, init);
      RecentDistinct(init);
      OrderStep(max, Recent(init), Run(max, init).order, k);
    }
  }

  // ---------------------------------------------------------------- when a client is reused

  function Keys(ks: seq<Key>): set<Key> {
    set k | k in ks
  }

  /** After a request for k and then others, k stands in the recency order just before the keys
      requested since. */
  lemma {:induction false} RecentAfter(before: seq<Key>, k: Key, since: seq<Key>)
    returns (older: seq<Key>, newer: seq<Key>)
    requires k !in since
    ensures Recent(before + [k] + since) == older + [k] + newer
    ensures k !in older && k !in newer && Distinct(newer) && Keys(newer) == Keys(since)
  {
    hide Without, Distinct;
    if since == [] {
      assert before + [k] + since == before + [k];
      assert (before + [k])[..|before|] == before;
      WithoutIs(Recent(before), k);
      NothingDistinct();
      older, newer := Without(Recent(before), k), [];
      assert older + [k] + newer == older + [k];
    } else {
      var init, x := since[..|since| - 1], since[|since| - 1];
      assert since == init + [x];
      var ks := before + [k] + since;
      assert ks[..|ks| - 1] == before + [k] + init && ks[|ks| - 1] == x;
      var older0, newer0 := RecentAfter(before, k, init);
      MoveNewer(older0, k, newer0, x);
      older, newer := Without(older0, x), Without(newer0, x) + [x];
      assert Keys(since) == Keys(init) + {x};
    }
  }

  lemma MoveNewer(older: seq<Key>, k: Key, newer: seq<Key>, x: Key)
    requires x != k && k !in older && k !in newer && Distinct(newer)
    ensures var newer' := Without(newer, x) + [x];
            && Without(older + [k] + newer, x) + [x] == Without(older, x) + [k] + newer'
            && k !in Without(older, x) && k !in newer' && Distinct(newer') && Keys(newer') == Keys(newer) + {x}
  {
    hide Without, Distinct;
    WithoutAppend(older + [k], newer, x);
    WithoutAppend(older, [k], x);
    WithoutIs([k], x);
    WithoutIs(older, x);
    WithoutIs(newer, x);
    DistinctSnoc(Without(newer, x), x);
  }

  lemma {:induction false} KeysCount(ks: seq<Key>)
    requires Distinct(ks)
    ensures |Keys(ks)| == |ks|
  {
    if ks != [] {
      var init, last := ks[..|ks| - 1], ks[|ks| - 1];
      assert ks == init + [last];
      DistinctSnoc(init, last);
      KeysCount(init);
      assert Keys(ks) == Keys(init) + {last} && last !in init;
    }
  }

  /** As long as k is not requested, it keeps its client or has none. */
  lemma {:induction false} ClientKept(max: nat, before: seq<Key>, since: seq<Key>, k: Key)
    requires k !in since && k in Run(max, before + since).clients
    ensures k in Run(max, before).clients && Run(max, before + since).clients[k] == Run(max, before).clients[k]
  {
    if since == [] {
      assert before + since == before;
    } else {
      assert since[|since| - 1] in since;
      assert (before + since)[..|before + since| - 1] == before + since[..|since| - 1];
      assert forall x <- since[..|since| - 1] :: x in since;
      ClientKept(max, before, since[..|since| - 1], k);
    }
  }

  /** A request gets the client of the previous request for the same key exactly when fewer than
      `max_size` other keys were requested in between. */
  lemma ReusedExactly(max: nat, before: seq<Key>, k: Key, since: seq<Key>)
    requires k !in since
    ensures ClientFor(max, before + [k] + since, k) == ClientFor(max, before, k) <==> |Keys(since)| < max
  {
    var ks := before + [k] + since;
    var older, newer := RecentAfter(before, k, since);
    KeysCount(newer);
    PoolIsLru(max, ks);
    InLast(older, k, newer, max);
    StillCached(max, before, k, since);
  }

  lemma InLast(older: seq<Key>, k: Key, newer: seq<Key>, max: nat)
    requires k !in older && k !in newer
    ensures k in LastOf(older + [k] + newer, max) <==> |newer| < max
  {
    var all := older + [k] + newer;
    assert all[|older|] == k;
    if |newer| < max {
      var i := if |all| <= max then |older| else |older| - (|all| - max);
      assert LastOf(all, max)[i] == k;
    } else {
      assert LastOf(all, max) == newer[|newer| - max..];
    }
  }

  /** Cached means the same client; not cached means a new one. */
  lemma StillCached(max: nat, before: seq<Key>, k: Key, since: seq<Key>)
    requires k !in since
    ensures ClientFor(max, before + [k] + since, k) == ClientFor(max, before, k)
            <==> k in Run(max, before + [k] + since).clients
  {
    var first := before + [k];
    assert first[..|before|] == before;
    RunValid(max, before);
    RequestValid(max, Run(max, before), k);
    CreatedGrows(max, first, since);
    if k in Run(max, first + since).clients {
      ClientKept(max, first, since, k);
    }
  }

  lemma {:induction false} CreatedGrows(max: nat, before: seq<Key>, since: seq<Key>)
    ensures Run(max, before).created <= Run(max, before + since).created
  {
    if since == [] {
      assert before + since == before;
    } else {
      assert (before + since)[..|before + since| - 1] == before + since[..|since| - 1];
      CreatedGrows(max, before, since[..|since| - 1]);
    }
  }

  predicate Shared(clients: map<Key, nat>, a: Key, b: Key) {
    a in clients && b in clients && clients[a] == clients[b]
  }

  lemma RequestDistinct(max: nat, p: Pool, k: Key, a: Key, b: Key)
    requires Valid(p) && Shared(Request(max, p, k).0.clients, a, b) && (Shared(p.clients, a, b) ==> a == b)
    ensures a == b
  {
    hide Without, Distinct;
  }

  /** Two keys never share a client. */
  lemma {:induction false} ClientsDistinct(max: nat, ks: seq<Key>)
    ensures forall a, b :: Shared(Run(max, ks).clients, a, b) ==> a == b
  {
    hide Request;
    if ks != [] {
      var p, k := Run(max, ks[..|ks| - 1]), ks[|ks| - 1];
      ClientsDistinct(max, ks[..|ks| - 1]);
      RunValid(max, ks[..|ks| - 1]);
      forall a, b | Shared(Run(max, ks).clients, a, b) ensures a == b { RequestDistinct(max, p, k, a, b); }
    }
  }
}
