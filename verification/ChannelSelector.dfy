/** Strings in the order of their code points, and sorting of channels. */
module ChannelOrder {
  import opened Wrappers

  datatype Channel = Channel(slug: string, priority: int, weight: int, account: Option<int>)

  predicate SlugLe(a: string, b: string) {
    a == "" || (b != "" && (a[0] < b[0] || (a[0] == b[0] && SlugLe(a[1..], b[1..]))))
  }

  lemma {:induction false} SlugTotal(a: string, b: string)
    ensures SlugLe(a, b) || SlugLe(b, a)
  {
    if a != "" && b != "" && a[0] == b[0] { SlugTotal(a[1..], b[1..]); }
  }

  lemma {:induction false} SlugAntisymmetric(a: string, b: string)
    requires SlugLe(a, b) && SlugLe(b, a)
    ensures a == b
  {
    if a != "" {
      SlugAntisymmetric(a[1..], b[1..]);
      assert a == [a[0]] + a[1..] && b == [b[0]] + b[1..];
    }
  }

  lemma {:induction false} SlugTransitive(a: string, b: string, c: string)
    requires SlugLe(a, b) && SlugLe(b, c)
    ensures SlugLe(a, c)
  {
    if a != "" && a[0] == b[0] == c[0] { SlugTransitive(a[1..], b[1..], c[1..]); }
  }

  /** The sort key of `select`: descending priority, then slug. */
  predicate Le(a: Channel, b: Channel) {
    a.priority > b.priority || (a.priority == b.priority && SlugLe(a.slug, b.slug))
  }

  lemma LeTotal(a: Channel, b: Channel)
    ensures Le(a, b) || Le(b, a)
  {
    SlugTotal(a.slug, b.slug);
  }

  lemma LeTransitive(a: Channel, b: Channel, c: Channel)
    requires Le(a, b) && Le(b, c)
    ensures Le(a, c)
  {
    if a.priority == b.priority == c.priority { SlugTransitive(a.slug, b.slug, c.slug); }
  }

  ghost predicate IsSorted(cs: seq<Channel>) {
    forall i, j | 0 <= i < j < |cs| :: Le(cs[i], cs[j])
  }

  function Insert(c: Channel, cs: seq<Channel>): (r: seq<Channel>)
    requires IsSorted(cs)
    ensures IsSorted(r) && multiset(r) == multiset{c} + multiset(cs)
  {
    if cs == [] then [c]
    else if Le(c, cs[0]) then
      assert IsSorted([c] + cs) by {
        forall j | 0 <= j < |cs| ensures Le(c, cs[j]) { if j > 0 { LeTransitive(c, cs[0], cs[j]); } }
      }
      [c] + cs
    else
      assert cs == [cs[0]] + cs[1..];
      var rest := Insert(c, cs[1..]);
      assert IsSorted([cs[0]] + rest) by {
        LeTotal(c, cs[0]);
        forall j | 0 <= j < |rest| ensures Le(cs[0], rest[j]) {
          assert rest[j] in multiset(rest);
          assert rest[j] == c || rest[j] in cs[1..];
        }
      }
      [cs[0]] + rest
  }

  /** The stable in-place sort of `select`, on values. */
  function SortChannels(cs: seq<Channel>): (r: seq<Channel>)
    ensures IsSorted(r) && multiset(r) == multiset(cs)
  {
    if cs == [] then []
    else
      assert cs == [cs[0]] + cs[1..];
      Insert(cs[0], SortChannels(cs[1..]))
  }

  /** Channels with the same slug are the same channel. */
  ghost predicate SlugsIdentify(m: multiset<Channel>) {
    forall a, b | a in m && b in m :: a.slug == b.slug ==> a == b
  }

  /** A sorted list is determined by its elements, if slugs identify channels. */
  lemma {:induction false} SortedUnique(xs: seq<Channel>, ys: seq<Channel>, all: multiset<Channel>)
    requires IsSorted(xs) && IsSorted(ys) && multiset(xs) == multiset(ys) <= all && SlugsIdentify(all)
    ensures xs == ys
  {
    hide SlugLe, Le;
    SameLength(xs, ys);
    if xs != [] {
      SameHead(xs, ys, all);
      SameTails(xs, ys);
      SortedUnique(xs[1..], ys[1..], all);
      assert xs == [xs[0]] + xs[1..] && ys == [ys[0]] + ys[1..];
    }
  }

  lemma SameLength(xs: seq<Channel>, ys: seq<Channel>)
    requires multiset(xs) == multiset(ys)
    ensures |xs| == |ys|
  {
    assert |xs| == |multiset(xs)| && |ys| == |multiset(ys)|;
  }

  lemma SameTails(xs: seq<Channel>, ys: seq<Channel>)
    requires xs != [] && ys != [] && xs[0] == ys[0] && multiset(xs) == multiset(ys)
    ensures multiset(xs[1..]) == multiset(ys[1..]) <= multiset(xs)
  {
    assert xs == [xs[0]] + xs[1..] && ys == [ys[0]] + ys[1..];
    assert multiset(xs) == multiset{xs[0]} + multiset(xs[1..]);
    assert multiset(ys) == multiset{xs[0]} + multiset(ys[1..]);
    assert multiset(xs[1..]) == multiset(xs) - multiset{xs[0]};
    assert multiset(ys[1..]) == multiset(ys) - multiset{xs[0]};
  }

  lemma SameHead(xs: seq<Channel>, ys: seq<Channel>, all: multiset<Channel>)
    requires IsSorted(xs) && IsSorted(ys) && multiset(xs) == multiset(ys) <= all && SlugsIdentify(all)
    requires xs != [] && ys != []
    ensures xs[0] == ys[0]
  {
    assert xs[0] in multiset(ys) && ys[0] in multiset(xs);
    var i :| 0 <= i < |ys| && ys[i] == xs[0];
    var j :| 0 <= j < |xs| && xs[j] == ys[0];
    if i > 0 && j > 0 {
      assert Le(ys[0], ys[i]) && Le(xs[0], xs[j]);
      SlugAntisymmetric(xs[0].slug, ys[0].slug);
    }
  }
}

/** `ChannelSelector` (services/channel_selector.py). */
module ChannelSelector {
  import opened Wrappers
  import opened Ordering
  import opened ChannelOrder

  /** Construction parameters; times are in seconds on a monotonic clock. */
  datatype Config = Config(cooldown: real, autoDisable: bool, threshold: int, disableCooldown: real)

  datatype State = State(
    counters: map<string, nat>,
    failures: map<string, real>,
    failureCounts: map<string, nat>,
    disabledUntil: map<string, real>,
    health: map<string, string>)

  const NEW_STATE := State(map[], map[], map[], map[], map[])

  datatype Outcome = Selected(channel: Channel) | NoChannels | RateLimited

  function Get<V>(m: map<string, V>, key: string, default: V): V {
    if key in m then m[key] else default
  }

  // ---------------------------------------------------------------- who is eligible

  /** The arguments of one call of `select`, and the time it reads. */
  datatype Query = Query(model: string, channels: seq<Channel>, excluded: set<string>, retryTier: nat,
                         limited: set<int>, now: real)

  predicate IsLimited(q: Query, c: Channel) {
    c.account.Some? && c.account.value in q.limited
  }

  predicate IsUnhealthy(st: State, model: string, c: Channel) {
    Get(st.health, c.slug + ":" + model, "") == "unhealthy"
  }

  predicate IsCooling(st: State, now: real, slug: string) {
    !(Get(st.disabledUntil, slug, 0.0) < now && Get(st.failures, slug, 0.0) < now)
  }

  predicate IsAvailable(st: State, q: Query, c: Channel) {
    c.slug !in q.excluded && !IsCooling(st, q.now, c.slug) && !IsUnhealthy(st, q.model, c) && !IsLimited(q, c)
  }

  function Filter(cs: seq<Channel>, keep: Channel -> bool): (r: seq<Channel>)
    ensures forall c :: c in r <==> c in cs && keep(c)
  {
    if cs == [] then []
    else Filter(cs[..|cs| - 1], keep) + if keep(cs[|cs| - 1]) then [cs[|cs| - 1]] else []
  }

  function Available(st: State, q: Query): seq<Channel> {
    Filter(q.channels, c => IsAvailable(st, q, c))
  }

  function Unlimited(q: Query): seq<Channel> {
    Filter(q.channels, (c: Channel) => c.slug !in q.excluded && !IsLimited(q, c))
  }

  function Unexcluded(q: Query): seq<Channel> {
    Filter(q.channels, (c: Channel) => c.slug !in q.excluded)
  }

  /** The channels to choose from, with the fallbacks: nothing if the model has no channels or
      all the un-excluded ones are rate-limited. */
  function Candidates(st: State, q: Query): seq<Channel> {
    if Available(st, q) != [] then Available(st, q)
    else if Unlimited(q) != [] then Unlimited(q)
    else if Unexcluded(q) == [] then q.channels
    else []
  }

  // ---------------------------------------------------------------- the priority tier

  function Priorities(cs: seq<Channel>): set<int> {
    set c <- cs :: c.priority
  }

  /** The distinct priorities, highest first. */
  function Descending(cs: seq<Channel>): (r: seq<int>)
    ensures forall p :: p in r <==> p in Priorities(cs)
    ensures forall i, j | 0 <= i < j < |r| :: r[i] > r[j]
  {
    var up := Sorted(Priorities(cs));
    var r := seq(|up|, k requires 0 <= k < |up| => up[|up| - 1 - k]);
    assert forall p <- up :: p in r by {
      forall p <- up ensures p in r {
        var k :| 0 <= k < |up| && up[k] == p;
        assert r[|up| - 1 - k] == p;
      }
    }
    r
  }

  /** The priority a retry descends to; tiers beyond the last stay at the last. */
  function TargetPriority(cs: seq<Channel>, tier: nat): (p: int)
    requires cs != []
    ensures p in Priorities(cs)
  {
    assert cs[0].priority in Priorities(cs);
    var ps := Descending(cs);
    var k := if tier < |ps| - 1 then tier else |ps| - 1;
    assert ps[k] in ps;
    ps[k]
  }

  function OfPriority(cs: seq<Channel>, p: int): (r: seq<Channel>)
    ensures forall c :: c in r <==> c in cs && c.priority == p
  {
    Filter(cs, (c: Channel) => c.priority == p)
  }

  function Tier(cs: seq<Channel>, tier: nat): (r: seq<Channel>)
    requires cs != []
    ensures r != [] && forall c <- r :: c in cs && c.priority == TargetPriority(cs, tier)
  {
    var p := TargetPriority(cs, tier);
    var sorted := SortChannels(cs);
    assert forall c :: c in sorted <==> c in multiset(sorted);
    assert forall c :: c in cs <==> c in multiset(cs);
    var r := OfPriority(sorted, p);
    assert r != [] by {
      var c :| c in cs && c.priority == p;
      assert c in r;
    }
    r
  }

  // ---------------------------------------------------------------- weighted round-robin

  function Weight(c: Channel): nat {
    if c.weight > 1 then c.weight else 1
  }

  function TotalWeight(cs: seq<Channel>): nat {
    if cs == [] then 0 else TotalWeight(cs[..|cs| - 1]) + Weight(cs[|cs| - 1])
  }

  /** The list in which every channel stands as often in a row as its weight says. */
  function Expand(cs: seq<Channel>): (r: seq<Channel>)
    ensures |r| == TotalWeight(cs)
  {
    if cs == [] then [] else Expand(cs[..|cs| - 1]) + Repeat(cs[|cs| - 1], Weight(cs[|cs| - 1]))
  }

  function Repeat(c: Channel, n: nat): seq<Channel> {
    seq(n, _ => c)
  }

  lemma WeightPositive(cs: seq<Channel>)
    requires cs != []
    ensures TotalWeight(cs) > 0
  {
  }

  /** One call of `select`: the new state and what is returned or raised. */
  function Select(st: State, q: Query): (State, Outcome) {
    var cs := Candidates(st, q);
    if cs == [] then (st, if q.channels == [] then NoChannels else RateLimited)
    else
      var tier := Tier(cs, q.retryTier);
      WeightPositive(tier);
      var counter := Get(st.counters, q.model, 0);
      (st.(counters := st.counters[q.model := counter + 1]), Selected(Expand(tier)[counter % TotalWeight(tier)]))
  }

  // ---------------------------------------------------------------- reports

  function Fail(cfg: Config, st: State, slug: string, at: real, at': real): State {
    var count := Get(st.failureCounts, slug, 0) + 1;
    st.(failures := st.failures[slug := at + cfg.cooldown],
        failureCounts := st.failureCounts[slug := count],
        disabledUntil := if cfg.autoDisable && count >= cfg.threshold
                         then st.disabledUntil[slug := at' + cfg.disableCooldown]
                         else st.disabledUntil)
  }

  function Succeed(st: State, slug: string): State {
    st.(failures := st.failures - {slug}, failureCounts := st.failureCounts - {slug},
        disabledUntil := st.disabledUntil - {slug})
  }

  // ---------------------------------------------------------------- the selector

  /** A list object: `select` may sort the caller's list in place. */
  class ChannelList {
    var items: seq<Channel>

    constructor (items: seq<Channel>)
      ensures this.items == items
    {
      this.items := items;
    }
  }

  class Selector {
    const cfg: Config
    var counters: map<string, nat>
    var failures: map<string, real>
    var failureCounts: map<string, nat>
    var disabledUntil: map<string, real>
    var health: map<string, string>

    function Value(): State
      reads this
    {
      State(counters, failures, failureCounts, disabledUntil, health)
    }

    constructor (cfg: Config)
      ensures Value() == NEW_STATE && this.cfg == cfg
    {
      this.cfg := cfg;
      counters, failures, failureCounts, disabledUntil, health := map[], map[], map[], map[], map[];
    }

    /** Selects by weighted round-robin within the tier. When every channel is excluded the
        candidates are the caller's own list, which is then left sorted. */
    method SelectChannel(model: string, channels: ChannelList, excluded: set<string>, retryTier: nat, limited: set<int>,
                         now: real) returns (outcome: Outcome)
      modifies this`counters, channels
      ensures var q := Query(model, old(channels.items), excluded, retryTier, limited, now);
              && (Value(), outcome) == Select(old(Value()), q)
              && channels.items
                 == if Unexcluded(q) == [] then SortChannels(old(channels.items)) else old(channels.items)
    {
      hide Expand, Filter, SortChannels, Descending, TotalWeight;
      var q := Query(model, channels.items, excluded, retryTier, limited, now);
      if channels.items == [] {
        NothingToSort();
        return NoChannels;
      }
      var available := Available(Value(), q);
      if available == [] {
        available := Unlimited(q);
        if available == [] {
          available := Unexcluded(q);
          if available != [] {
            return RateLimited;
          }
          channels.items := SortChannels(channels.items);
          available := q.channels;
        }
      }
      SomeUnexcluded(Value(), q);
      ghost var candidates := available;
      SortKeepsPriorities(available);
      available := SortChannels(available);
      var target := TargetPriority(available, retryTier);
      SamePriorities(available, candidates, retryTier);
      available := OfPriority(available, target);
      assert available == Tier(candidates, retryTier);
      var counter := Get(counters, model, 0);
      WeightPositive(available);
      var idx := counter % TotalWeight(available);
      counters := counters[model := counter + 1];
      var c := PickByWeight(available, idx);
      outcome := Selected(c);
    }

    method ReportFailure(slug: string, at: real, at': real)
      modifies this`failures, this`failureCounts, this`disabledUntil
      ensures Value() == Fail(cfg, old(Value()), slug, at, at')
    {
      failures := failures[slug := at + cfg.cooldown];
      var count := Get(failureCounts, slug, 0) + 1;
      failureCounts := failureCounts[slug := count];
      if cfg.autoDisable && count >= cfg.threshold {
        disabledUntil := disabledUntil[slug := at' + cfg.disableCooldown];
      }
    }

    method ReportSuccess(slug: string)
      modifies this`failures, this`failureCounts, this`disabledUntil
      ensures Value() == Succeed(old(Value()), slug)
    {
      failures := failures - {slug};
      failureCounts := failureCounts - {slug};
      disabledUntil := disabledUntil - {slug};
    }

    method UpdateHealthCache(healthData: map<string, string>)
      modifies this`health
      ensures Value() == old(Value()).(health := healthData)
    {
      health := healthData;
    }

    method IsChannelAvailable(slug: string, now: real) returns (available: bool)
      ensures available == !IsCooling(Value(), now, slug)
    {
      available := Get(disabledUntil, slug, 0.0) < now && Get(failures, slug, 0.0) < now;
    }
  }

  lemma SortKeepsPriorities(cs: seq<Channel>)
    ensures Priorities(SortChannels(cs)) == Priorities(cs)
    ensures SortChannels(cs) == [] ==> cs == []
  {
    hide SortChannels;
    var sorted := SortChannels(cs);
    assert forall c :: c in sorted <==> c in multiset(sorted);
    assert forall c :: c in cs <==> c in multiset(cs);
    if cs != [] { assert cs[0] in sorted; }
  }

  lemma SamePriorities(cs: seq<Channel>, cs': seq<Channel>, tier: nat)
    requires cs != [] && cs' != [] && Priorities(cs) == Priorities(cs')
    ensures TargetPriority(cs, tier) == TargetPriority(cs', tier)
  {
  }

  lemma NothingToSort()
    ensures SortChannels([]) == []
  {
  }

  lemma SomeUnexcluded(st: State, q: Query)
    ensures Available(st, q) != [] || Unlimited(q) != [] ==> Unexcluded(q) != []
  {
    hide Filter;
    if Available(st, q) != [] {
      var c := Available(st, q)[0];
      assert c in Available(st, q) && c in Unexcluded(q);
    }
    if Unlimited(q) != [] {
      var c := Unlimited(q)[0];
      assert c in Unlimited(q) && c in Unexcluded(q);
    }
  }

  /** The cumulative-weight walk. It always returns from within the loop: the code's final
      `return available[-1]` is never reached. */
  method PickByWeight(cs: seq<Channel>, idx: nat) returns (c: Channel)
    requires idx < TotalWeight(cs)
    ensures c == Expand(cs)[idx]
  {
    var cumulative := 0;
    assert cs[..|cs|] == cs;
    for k := 0 to |cs|
      invariant cumulative == TotalWeight(cs[..k]) <= idx
    {
      assert cs[..k + 1][..k] == cs[..k];
      cumulative := cumulative + Weight(cs[k]);
      if idx < cumulative {
        ExpandAt(cs, k, idx);
        return cs[k];
      }
    }
    assert false;
  }

  lemma {:induction false} ExpandAt(cs: seq<Channel>, k: nat, idx: nat)
    requires k < |cs| && TotalWeight(cs[..k]) <= idx < TotalWeight(cs[..k]) + Weight(cs[k])
    ensures idx < TotalWeight(cs) && Expand(cs)[idx] == cs[k]
  {
    if k == |cs| - 1 {
      assert Expand(cs)[idx] == Repeat(cs[k], Weight(cs[k]))[idx - TotalWeight(cs[..k])];
    } else {
      var init := cs[..|cs| - 1];
      assert init[..k] == cs[..k];
      ExpandAt(init, k, idx);
      assert Expand(cs)[idx] == Expand(init)[idx];
    }
  }
}
