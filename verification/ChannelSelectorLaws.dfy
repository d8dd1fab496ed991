/** What `ChannelSelector` guarantees, in any state and over any history of calls. */
module ChannelSelectorLaws {
  import opened ChannelOrder
  import opened ChannelSelector

  // ---------------------------------------------------------------- a complete specification of select

  ghost function Elements(xs: seq<int>): set<int> {
    set x | x in xs
  }

  lemma {:induction false} DistinctCount(xs: seq<int>)
    requires forall i, j | 0 <= i < j < |xs| :: xs[i] != xs[j]
    ensures |Elements(xs)| == |xs|
  {
    if xs != [] {
      var init, x := xs[..|xs| - 1], xs[|xs| - 1];
      DistinctCount(init);
      assert Elements(xs) == Elements(init) + {x} && x !in Elements(init);
    }
  }

  /** How many distinct priorities lie above p. */
  ghost function Above(cs: seq<Channel>, p: int): nat {
    |Higher(Priorities(cs), p)|
  }

  ghost function Higher(ps: set<int>, p: int): set<int> {
    set p' | p' in ps && p' > p
  }

  lemma RankAt(ps: seq<int>, all: set<int>, k: nat)
    requires k < |ps| && (forall i, j | 0 <= i < j < |ps| :: ps[i] > ps[j])
    requires forall p :: p in ps <==> p in all
    ensures |Higher(all, ps[k])| == k && |all| == |ps|
  {
    DistinctCount(ps);
    assert Elements(ps) == all;
    DistinctCount(ps[..k]);
    forall p | p in all && p > ps[k] ensures p in ps[..k] {
      var j :| 0 <= j < |ps| && ps[j] == p;
      assert ps[..k][j] == p;
    }
    assert Higher(all, ps[k]) == Elements(ps[..k]);
  }

  lemma TargetRank(cs: seq<Channel>, tier: nat)
    requires cs != []
    ensures Above(cs, TargetPriority(cs, tier)) == if tier < |Priorities(cs)| then tier else |Priorities(cs)| - 1
  {
    hide Descending;
    assert cs[0].priority in Priorities(cs);
    var ps := Descending(cs);
    assert cs[0].priority in ps;
    RankAt(ps, Priorities(cs), if tier < |ps| - 1 then tier else |ps| - 1);
  }

  /** The outcome of a call, stated without sorting or counting: who may be chosen, from which
      priority tier, and exactly when the call raises instead. */
  lemma SelectSpecification(st: State, q: Query)
    ensures var outcome := Select(st, q).1;
            && (outcome.NoChannels? <==> q.channels == [])
            && (outcome.RateLimited? <==>
                 (exists c <- q.channels :: c.slug !in q.excluded)
                 && (forall c <- q.channels ::
                       c.slug !in q.excluded ==> c.account.Some? && c.account.value in q.limited))
            && (outcome.Selected? ==>
                 var ch := outcome.channel;
                 && ch in q.channels
                 && ((exists c <- q.channels :: IsAvailable(st, q, c)) ==> IsAvailable(st, q, ch))
                 && (ch.slug in q.excluded || (ch.account.Some? && ch.account.value in q.limited) ==>
                       forall c <- q.channels :: c.slug in q.excluded)
                 && ch in Candidates(st, q)
                 && Above(Candidates(st, q), ch.priority)
                    == if q.retryTier < |Priorities(Candidates(st, q))| then q.retryTier
                       else |Priorities(Candidates(st, q))| - 1)
  {
    hide Filter, Expand, TotalWeight, Tier, TargetPriority;
    var cs := Candidates(st, q);
    CandidatesRaise(st, q);
    if cs != [] {
      var tier := Tier(cs, q.retryTier);
      WeightPositive(tier);
      TargetRank(cs, q.retryTier);
      var idx := Get(st.counters, q.model, 0) % TotalWeight(tier);
      ExpandMember(tier, idx);
      CandidatesMember(st, q, Expand(tier)[idx]);
    }
  }

  lemma CandidatesRaise(st: State, q: Query)
    ensures Candidates(st, q) == [] <==>
              q.channels == []
              || ((exists c <- q.channels :: c.slug !in q.excluded)
                  && (forall c <- q.channels :: c.slug !in q.excluded ==> IsLimited(q, c)))
  {
    hide Filter;
    forall c <- q.channels ensures (IsAvailable(st, q, c) <==> c in Available(st, q))
      && (c.slug !in q.excluded && !IsLimited(q, c) <==> c in Unlimited(q))
      && (c.slug !in q.excluded <==> c in Unexcluded(q)) {}
    if Available(st, q) != [] { assert Available(st, q)[0] in q.channels; }
    if Unlimited(q) != [] { assert Unlimited(q)[0] in q.channels; }
    if Unexcluded(q) != [] { assert Unexcluded(q)[0] in q.channels; }
    if q.channels != [] { assert q.channels[0] in q.channels; }
  }

  lemma CandidatesMember(st: State, q: Query, ch: Channel)
    requires ch in Candidates(st, q)
    ensures ch in q.channels
    ensures (exists c <- q.channels :: IsAvailable(st, q, c)) ==> IsAvailable(st, q, ch)
    ensures ch.slug in q.excluded || IsLimited(q, ch) ==> forall c <- q.channels :: c.slug in q.excluded
  {
    hide Filter;
    assert forall c <- q.channels :: IsAvailable(st, q, c) <==> c in Available(st, q);
    assert forall c <- q.channels :: c.slug !in q.excluded <==> c in Unexcluded(q);
  }

  lemma {:induction false} ExpandMember(cs: seq<Channel>, idx: nat)
    requires idx < TotalWeight(cs)
    ensures Expand(cs)[idx] in cs
  {
    var init := cs[..|cs| - 1];
    if idx < TotalWeight(init) {
      ExpandMember(init, idx);
      assert Expand(cs)[idx] == Expand(init)[idx];
    }
  }

  // ---------------------------------------------------------------- list order does not matter

  lemma {:induction false} FilterCount(cs: seq<Channel>, keep: Channel -> bool, c: Channel)
    ensures multiset(Filter(cs, keep))[c] == if keep(c) then multiset(cs)[c] else 0
  {
    if cs != [] {
      var init, last := cs[..|cs| - 1], cs[|cs| - 1];
      FilterCount(init, keep, c);
      assert cs == init + [last];
    }
  }

  lemma FilterPermuted(cs: seq<Channel>, cs': seq<Channel>, keep: Channel -> bool)
    requires multiset(cs) == multiset(cs')
    ensures multiset(Filter(cs, keep)) == multiset(Filter(cs', keep))
  {
    forall c: Channel ensures multiset(Filter(cs, keep))[c] == multiset(Filter(cs', keep))[c] {
      FilterCount(cs, keep, c);
      FilterCount(cs', keep, c);
    }
  }

  lemma FilterSubset(cs: seq<Channel>, keep: Channel -> bool)
    ensures multiset(Filter(cs, keep)) <= multiset(cs)
  {
    forall c: Channel ensures multiset(Filter(cs, keep))[c] <= multiset(cs)[c] { FilterCount(cs, keep, c); }
  }

  lemma CandidatesPermuted(st: State, q: Query, q': Query)
    requires q' == q.(channels := q'.channels) && multiset(q.channels) == multiset(q'.channels)
    ensures multiset(Candidates(st, q)) == multiset(Candidates(st, q')) <= multiset(q.channels)
  {
    hide Filter;
    var available := (c: Channel) => IsAvailable(st, q, c);
    var unlimited := (c: Channel) => c.slug !in q.excluded && !IsLimited(q, c);
    var unexcluded := (c: Channel) => c.slug !in q.excluded;
    SameFilters(st, q, q');
    FilterPermuted(q.channels, q'.channels, available);
    FilterPermuted(q.channels, q'.channels, unlimited);
    FilterPermuted(q.channels, q'.channels, unexcluded);
    FilterSubset(q.channels, available);
    FilterSubset(q.channels, unlimited);
    SameLength(Filter(q.channels, available), Filter(q'.channels, available));
    SameLength(Filter(q.channels, unlimited), Filter(q'.channels, unlimited));
    SameLength(Filter(q.channels, unexcluded), Filter(q'.channels, unexcluded));
  }

  lemma FilterCong(cs: seq<Channel>, f: Channel -> bool, g: Channel -> bool)
    requires forall c: Channel :: f(c) == g(c)
    ensures Filter(cs, f) == Filter(cs, g)
  {
  }

  lemma SameFilters(st: State, q: Query, q': Query)
    requires q' == q.(channels := q'.channels)
    ensures Available(st, q) == Filter(q.channels, (c: Channel) => IsAvailable(st, q, c))
    ensures Available(st, q') == Filter(q'.channels, (c: Channel) => IsAvailable(st, q, c))
    ensures Unlimited(q) == Filter(q.channels, (c: Channel) => c.slug !in q.excluded && !IsLimited(q, c))
    ensures Unlimited(q') == Filter(q'.channels, (c: Channel) => c.slug !in q.excluded && !IsLimited(q, c))
    ensures Unexcluded(q) == Filter(q.channels, (c: Channel) => c.slug !in q.excluded)
    ensures Unexcluded(q') == Filter(q'.channels, (c: Channel) => c.slug !in q.excluded)
  {
    FilterCong(q'.channels, (c: Channel) => IsAvailable(st, q', c), (c: Channel) => IsAvailable(st, q, c));
    FilterCong(q'.channels, (c: Channel) => c.slug !in q'.excluded && !IsLimited(q', c),
               (c: Channel) => c.slug !in q.excluded && !IsLimited(q, c));
  }

  lemma TierPermuted(cs: seq<Channel>, cs': seq<Channel>, all: multiset<Channel>, tier: nat)
    requires cs != [] && multiset(cs) == multiset(cs') <= all && SlugsIdentify(all)
    ensures cs' != [] && Tier(cs, tier) == Tier(cs', tier)
  {
    hide OfPriority, TargetPriority, Priorities;
    SameLength(cs, cs');
    SortedUnique(SortChannels(cs), SortChannels(cs'), all);
    SortKeepsPriorities(cs);
    SortKeepsPriorities(cs');
    SamePriorities(cs, cs', tier);
  }

  /** If slugs identify channels, the order of the channel list has no influence on the call. */
  lemma OrderIrrelevant(st: State, q: Query, q': Query)
    requires q' == q.(channels := q'.channels) && multiset(q.channels) == multiset(q'.channels)
    requires SlugsIdentify(multiset(q.channels))
    ensures Select(st, q) == Select(st, q')
  {
    hide Candidates, Tier, Expand, TotalWeight;
    CandidatesPermuted(st, q, q');
    SameLength(q.channels, q'.channels);
    SameLength(Candidates(st, q), Candidates(st, q'));
    if Candidates(st, q) != [] {
      TierPermuted(Candidates(st, q), Candidates(st, q'), multiset(q.channels), q.retryTier);
    }
  }

  // ---------------------------------------------------------------- histories

  /** A call on the selector; failures carry the two clock readings of `report_failure`. */
  datatype Call =
    | Selecting(query: Query)
    | Failed(slug: string, at: real, at': real)
    | Succeeded(slug: string)
    | Health(data: map<string, string>)

  function Step(cfg: Config, st: State, call: Call): State {
    match call
    case Selecting(q) => Select(st, q).0
    case Failed(slug, at, at') => Fail(cfg, st, slug, at, at')
    case Succeeded(slug) => Succeed(st, slug)
    case Health(data) => st.(health := data)
  }

  function Run(cfg: Config, st: State, calls: seq<Call>): State {
    if calls == [] then st else Step(cfg, Run(cfg, st, calls[..|calls| - 1]), calls[|calls| - 1])
  }

  /** The channels returned to the selects for model m, in order. */
  function Picks(cfg: Config, st: State, calls: seq<Call>, m: string): seq<Channel> {
    if calls == [] then []
    else
      var init, call := calls[..|calls| - 1], calls[|calls| - 1];
      Picks(cfg, st, init, m)
      + if IsPick(cfg, st, init, call, m) then [Select(Run(cfg, st, init), call.query).1.channel] else []
  }

  predicate IsPick(cfg: Config, st: State, init: seq<Call>, call: Call, m: string) {
    call.Selecting? && call.query.model == m && Select(Run(cfg, st, init), call.query).1.Selected?
  }

  // ---------------------------------------------------------------- fairness

  /** At every select for model m the tier to choose from is the same list. */
  predicate FixedTier(cfg: Config, st: State, calls: seq<Call>, m: string, tier: seq<Channel>) {
    calls == []
    || (var init, call := calls[..|calls| - 1], calls[|calls| - 1];
        && FixedTier(cfg, st, init, m, tier)
        && (call.Selecting? && call.query.model == m ==>
              var cs := Candidates(Run(cfg, st, init), call.query);
              cs != [] && Tier(cs, call.query.retryTier) == tier))
  }

  /** Only a successful select for the model moves its counter. */
  lemma StepCounts(cfg: Config, st: State, call: Call, m: string)
    ensures var picks := call.Selecting? && call.query.model == m && Select(st, call.query).1.Selected?;
            Get(Step(cfg, st, call).counters, m, 0) == Get(st.counters, m, 0) + if picks then 1 else 0
  {
    hide Candidates, Tier, Expand, TotalWeight;
  }

  lemma {:induction false} PicksInOrder(cfg: Config, st: State, calls: seq<Call>, m: string, tier: seq<Channel>)
    requires tier != [] && FixedTier(cfg, st, calls, m, tier)
    ensures TotalWeight(tier) > 0
    ensures var c0, ps := Get(st.counters, m, 0), Picks(cfg, st, calls, m);
            && Get(Run(cfg, st, calls).counters, m, 0) == c0 + |ps|
            && (forall j | 0 <= j < |ps| :: ps[j] == Expand(tier)[(c0 + j) % TotalWeight(tier)])
  {
    hide Candidates, Tier, Expand, TotalWeight, Step;
    WeightPositive(tier);
    if calls != [] {
      var init, call := calls[..|calls| - 1], calls[|calls| - 1];
      PicksInOrder(cfg, st, init, m, tier);
      StepCounts(cfg, Run(cfg, st, init), call, m);
    }
  }

  /** A stretch of one full round, starting anywhere, is a rotation of the list. */
  lemma Rotation(xs: seq<Channel>, c0: nat, ps: seq<Channel>)
    requires |ps| == |xs| > 0 && forall j | 0 <= j < |ps| :: ps[j] == xs[(c0 + j) % |xs|]
    ensures multiset(ps) == multiset(xs)
  {
    var n := |xs|;
    var r := c0 % n;
    forall j | 0 <= j < n ensures ps[j] == (xs[r..] + xs[..r])[j] {
      if j < n - r { Wrap(c0, j, n, r + j); } else { Wrap(c0, j, n, r + j - n); }
    }
    assert ps == xs[r..] + xs[..r];
    assert xs == xs[..r] + xs[r..];
  }

  lemma Wrap(c0: nat, j: nat, n: nat, rest: nat)
    requires n > 0 && j < n && rest < n && (rest == c0 % n + j || rest == c0 % n + j - n)
    ensures (c0 + j) % n == rest
  {
    var k := c0 / n;
    assert c0 == n * k + c0 % n;
    if rest == c0 % n + j {
      Remainder(c0 + j, n, k, rest);
    } else {
      Distribute(n, k);
      Remainder(c0 + j, n, k + 1, rest);
    }
  }

  lemma Distribute(n: int, k: int)
    ensures n * (k + 1) == n * k + n
    ensures (k + 1) * n == k * n + n
  {
  }

  lemma Remainder(x: nat, n: nat, q: int, r: nat)
    requires n > 0 && x == n * q + r && r < n
    ensures x % n == r
  {
    var q', r' := x / n, x % n;
    assert x == n * q' + r';
    var d := q - q';
    assert n * d == n * q - n * q';
    if d >= 1 { Grows(n, d); } else if d <= -1 { Grows(n, -d); }
  }

  lemma Grows(n: nat, d: nat)
    requires d >= 1
    ensures n * d >= n
  {
  }

  /** How often a channel stands in the expanded list. */
  lemma {:induction false} ExpandCount(cs: seq<Channel>, c: Channel)
    ensures multiset(Expand(cs))[c] == multiset(cs)[c] * Weight(c)
  {
    hide Weight, Repeat;
    if cs != [] {
      var init, last := cs[..|cs| - 1], cs[|cs| - 1];
      ExpandCount(init, c);
      assert cs == init + [last];
      RepeatCount(last, Weight(last), c);
      Distribute(Weight(c), multiset(init)[c]);
    }
  }

  lemma {:induction false} RepeatCount(d: Channel, n: nat, c: Channel)
    ensures multiset(Repeat(d, n))[c] == if c == d then n else 0
  {
    if n > 0 {
      RepeatCount(d, n - 1, c);
      assert Repeat(d, n) == Repeat(d, n - 1) + [d];
    }
  }

  /** The share of a channel in one round: its weight, but at least one. */
  function Share(c: Channel): int {
    if c.weight < 1 then 1 else c.weight
  }

  function Shares(cs: seq<Channel>): int {
    if cs == [] then 0 else Shares(cs[..|cs| - 1]) + Share(cs[|cs| - 1])
  }

  lemma {:induction false} SharesAreWeights(cs: seq<Channel>, c: Channel)
    ensures Shares(cs) == TotalWeight(cs) && Share(c) == Weight(c)
  {
    if cs != [] { SharesAreWeights(cs[..|cs| - 1], cs[|cs| - 1]); }
  }

  /** Weighted round-robin is exactly fair. While the tier of a model stays fixed, any full round
      of selects for it, from any counter value, whatever else is called in between, returns
      each channel of the tier exactly max(weight, 1) times (per listing), and no other. */
  lemma RoundIsFair(cfg: Config, st: State, calls: seq<Call>, m: string, tier: seq<Channel>, c: Channel)
    requires tier != [] && FixedTier(cfg, st, calls, m, tier)
    requires |Picks(cfg, st, calls, m)| == Shares(tier)
    ensures multiset(Picks(cfg, st, calls, m))[c] == multiset(tier)[c] * Share(c)
  {
    hide Picks, FixedTier, Expand, TotalWeight, Weight, Run;
    SharesAreWeights(tier, c);
    PicksInOrder(cfg, st, calls, m, tier);
    Rotation(Expand(tier), Get(st.counters, m, 0), Picks(cfg, st, calls, m));
    ExpandCount(tier, c);
  }

  // ---------------------------------------------------------------- failures

  /** Failures of a channel since its last success, from the history alone. */
  function FailuresSince(calls: seq<Call>, slug: string): nat {
    if calls == [] then 0
    else
      var init, call := calls[..|calls| - 1], calls[|calls| - 1];
      if call.Failed? && call.slug == slug then FailuresSince(init, slug) + 1
      else if call.Succeeded? && call.slug == slug then 0
      else FailuresSince(init, slug)
  }

  function LastFailure(calls: seq<Call>, slug: string): (call: Call)
    requires FailuresSince(calls, slug) > 0
    ensures call.Failed? && call.slug == slug
  {
    var call := calls[|calls| - 1];
    if call.Failed? && call.slug == slug then call else LastFailure(calls[..|calls| - 1], slug)
  }

  predicate ShouldDisable(cfg: Config, count: nat) {
    cfg.autoDisable && count > 0 && count >= cfg.threshold
  }

  /** What one call does to the records of one channel. */
  lemma StepRecords(cfg: Config, st: State, call: Call, slug: string)
    ensures var st' := Step(cfg, st, call);
            if call.Failed? && call.slug == slug then
              var n := Get(st.failureCounts, slug, 0) + 1;
              && slug in st'.failureCounts && st'.failureCounts[slug] == n
              && slug in st'.failures && st'.failures[slug] == call.at + cfg.cooldown
              && (if cfg.autoDisable && n >= cfg.threshold then
                    slug in st'.disabledUntil && st'.disabledUntil[slug] == call.at' + cfg.disableCooldown
                  else SameAt(st.disabledUntil, st'.disabledUntil, slug))
            else if call.Succeeded? && call.slug == slug then
              slug !in st'.failureCounts && slug !in st'.failures && slug !in st'.disabledUntil
            else
              && SameAt(st.failureCounts, st'.failureCounts, slug) && SameAt(st.failures, st'.failures, slug)
              && SameAt(st.disabledUntil, st'.disabledUntil, slug)
  {
    hide Select;
    if call.Selecting? { SelectKeeps(st, call.query); }
  }

  ghost predicate SameAt<V>(m: map<string, V>, m': map<string, V>, key: string) {
    (key in m' <==> key in m) && (key in m ==> m'[key] == m[key])
  }

  /** After any history of calls, the recorded count is the number of failures since the last
      success, the cooldown runs from the last failure, and a channel is disabled exactly when
      the count has reached the threshold, for the long cooldown from the last failure. */
  lemma {:induction false} FailuresRecorded(cfg: Config, calls: seq<Call>, slug: string)
    ensures var st, n := Run(cfg, NEW_STATE, calls), FailuresSince(calls, slug);
            && Get(st.failureCounts, slug, 0) == n && (slug in st.failureCounts <==> n > 0)
            && (slug in st.failures <==> n > 0)
            && (n > 0 ==> st.failures[slug] == LastFailure(calls, slug).at + cfg.cooldown)
            && (slug in st.disabledUntil <==> ShouldDisable(cfg, n))
            && (ShouldDisable(cfg, n) ==> st.disabledUntil[slug] == LastFailure(calls, slug).at' + cfg.disableCooldown)
  {
    hide Select, Step;
    if calls != [] {
      var init, call := calls[..|calls| - 1], calls[|calls| - 1];
      FailuresRecorded(cfg, init, slug);
      StepRecords(cfg, Run(cfg, NEW_STATE, init), call, slug);
    }
  }

  lemma SelectKeeps(st: State, q: Query)
    ensures Select(st, q).0 == st.(counters := Select(st, q).0.counters)
  {
  }

  /** When a channel counts as cooling, from the history alone. */
  lemma CoolingExactly(cfg: Config, calls: seq<Call>, slug: string, now: real)
    requires now > 0.0
    ensures IsCooling(Run(cfg, NEW_STATE, calls), now, slug) <==>
              var n := FailuresSince(calls, slug);
              && n > 0
              && (now <= LastFailure(calls, slug).at + cfg.cooldown
                  || (ShouldDisable(cfg, n) && now <= LastFailure(calls, slug).at' + cfg.disableCooldown))
  {
    hide Run;
    FailuresRecorded(cfg, calls, slug);
  }
}