/**
 What `select` does after any history of calls, told from the calls alone: which channels it may
 choose, on which tier, and when it raises.
 */
module ChannelSelectorHistory {
  import opened Wrappers
  import opened Ordering
  import opened ChannelOrder
  import opened ChannelSelector
  import opened ChannelSelectorLaws

  // ---------------------------------------------------------------- a channel, from the history alone

  /** The health data most recently set. */
  function LastHealth(calls: seq<Call>): map<string, string> {
    if calls == [] then map[]
    else
      match calls[|calls| - 1]
      case Health(data) => data
      case _ => LastHealth(calls[..|calls| - 1])
  }

  /** A failure since the last success still counts: its cooldown runs, or the long one that follows
      the failure that reached the threshold or came after it. */
  predicate Cools(cfg: Config, calls: seq<Call>, slug: string, now: real) {
    var n := FailuresSince(calls, slug);
    && n > 0
    && (var last := LastFailure(calls, slug);
        || now <= last.at + cfg.cooldown
        || (cfg.autoDisable && n >= cfg.threshold && now <= last.at' + cfg.disableCooldown))
  }

  predicate IsSick(calls: seq<Call>, model: string, slug: string) {
    var key, data := slug + ":" + model, LastHealth(calls);
    key in data && data[key] == "unhealthy"
  }

  /** Neither excluded nor on an account that has reached its limit. */
  predicate IsOpen(q: Query, c: Channel) {
    c.slug !in q.excluded && (c.account == None || c.account.value !in q.limited)
  }

  predicate IsUsable(cfg: Config, calls: seq<Call>, q: Query, c: Channel) {
    IsOpen(q, c) && !Cools(cfg, calls, c.slug, q.now) && !IsSick(calls, q.model, c.slug)
  }

  /** The channels `select` chooses from: the usable ones; if there is none, the open ones; and all of
      them if every one is excluded. */
  ghost predicate InPool(cfg: Config, calls: seq<Call>, q: Query, c: Channel) {
    && c in q.channels
    && if exists d <- q.channels :: IsUsable(cfg, calls, q, d) then IsUsable(cfg, calls, q, c)
       else if exists d <- q.channels :: IsOpen(q, d) then IsOpen(q, c)
       else forall d <- q.channels :: d.slug in q.excluded
  }

  ghost function PoolPriorities(cfg: Config, calls: seq<Call>, q: Query): set<int> {
    set c | c in q.channels && InPool(cfg, calls, q, c) :: c.priority
  }

  /** As many distinct priorities of the pool lie above the channel's as the tier says, or all the
      others if there are fewer. */
  ghost predicate InTier(cfg: Config, calls: seq<Call>, q: Query, c: Channel) {
    var ps := PoolPriorities(cfg, calls, q);
    |set p | p in ps && p > c.priority| == if q.retryTier < |ps| then q.retryTier else |ps| - 1
  }

  // ---------------------------------------------------------------- the state tells the same

  lemma {:induction false} HealthKept(cfg: Config, calls: seq<Call>)
    ensures Run(cfg, NEW_STATE, calls).health == LastHealth(calls)
  {
    hide Select;
    if calls != [] {
      var init, call := calls[..|calls| - 1], calls[|calls| - 1];
      HealthKept(cfg, init);
      if call.Selecting? { SelectKeeps(Run(cfg, NEW_STATE, init), call.query); }
    }
  }

  lemma UsableIsAvailable(cfg: Config, calls: seq<Call>, q: Query, c: Channel)
    requires q.now > 0.0
    ensures IsUsable(cfg, calls, q, c) <==> IsAvailable(Run(cfg, NEW_STATE, calls), q, c)
  {
    hide Run, IsCooling;
    HealthKept(cfg, calls);
    CoolingExactly(cfg, calls, c.slug, q.now);
  }

  lemma OpenIsUnlimited(q: Query, c: Channel)
    ensures IsOpen(q, c) <==> c.slug !in q.excluded && !IsLimited(q, c)
  {
  }

  lemma PoolIsCandidates(cfg: Config, calls: seq<Call>, q: Query)
    requires q.now > 0.0
    ensures forall c :: c in Candidates(Run(cfg, NEW_STATE, calls), q) <==> InPool(cfg, calls, q, c)
  {
    hide Filter, IsUsable, IsOpen, IsAvailable, IsLimited, Run;
    var st := Run(cfg, NEW_STATE, calls);
    forall c: Channel
      ensures IsUsable(cfg, calls, q, c) <==> IsAvailable(st, q, c)
      ensures IsOpen(q, c) <==> c.slug !in q.excluded && !IsLimited(q, c)
    {
      UsableIsAvailable(cfg, calls, q, c);
      OpenIsUnlimited(q, c);
    }
    Filtered(st, q);
  }

  /** The three filters, by their members. */
  lemma Filtered(st: State, q: Query)
    ensures forall c :: c in Available(st, q) <==> c in q.channels && IsAvailable(st, q, c)
    ensures forall c :: c in Unlimited(q) <==> c in q.channels && c.slug !in q.excluded && !IsLimited(q, c)
    ensures forall c :: c in Unexcluded(q) <==> c in q.channels && c.slug !in q.excluded
    ensures Available(st, q) != [] <==> exists c <- q.channels :: IsAvailable(st, q, c)
    ensures Unlimited(q) != [] <==> exists c <- q.channels :: c.slug !in q.excluded && !IsLimited(q, c)
    ensures Unexcluded(q) != [] <==> exists c <- q.channels :: c.slug !in q.excluded
  {
    hide Filter, IsAvailable, IsLimited;
    if Available(st, q) != [] { assert Available(st, q)[0] in Available(st, q); }
    if Unlimited(q) != [] { assert Unlimited(q)[0] in Unlimited(q); }
    if Unexcluded(q) != [] { assert Unexcluded(q)[0] in Unexcluded(q); }
  }

  lemma TierIsInTier(cfg: Config, calls: seq<Call>, q: Query, c: Channel)
    requires q.now > 0.0
    ensures var cs := Candidates(Run(cfg, NEW_STATE, calls), q);
            InTier(cfg, calls, q, c) <==>
              Above(cs, c.priority) == if q.retryTier < |Priorities(cs)| then q.retryTier else |Priorities(cs)| - 1
  {
    hide Candidates, InPool, Run;
    PoolIsCandidates(cfg, calls, q);
    var cs := Candidates(Run(cfg, NEW_STATE, calls), q);
    forall c | InPool(cfg, calls, q, c) ensures c in q.channels { PoolInList(cfg, calls, q, c); }
    assert Priorities(cs) == PoolPriorities(cfg, calls, q);
  }

  lemma PoolInList(cfg: Config, calls: seq<Call>, q: Query, c: Channel)
    requires InPool(cfg, calls, q, c)
    ensures c in q.channels
  {
  }

  // ---------------------------------------------------------------- the main results

  /** After any history: `select` raises exactly when there is no channel, or all that are not excluded
      have reached their limit; otherwise it returns a channel of the pool, on the tier asked for. */
  lemma SelectAfterHistory(cfg: Config, calls: seq<Call>, q: Query)
    requires q.now > 0.0
    ensures var outcome := Select(Run(cfg, NEW_STATE, calls), q).1;
            && (outcome.NoChannels? <==> q.channels == [])
            && (outcome.RateLimited? <==>
                 && (exists c <- q.channels :: c.slug !in q.excluded)
                 && (forall c <- q.channels :: c.slug !in q.excluded ==> !IsOpen(q, c)))
            && (outcome.Selected? ==>
                 InPool(cfg, calls, q, outcome.channel) && InTier(cfg, calls, q, outcome.channel))
  {
    hide Select, Candidates, InPool, InTier, Run;
    var st := Run(cfg, NEW_STATE, calls);
    SelectSpecification(st, q);
    PoolIsCandidates(cfg, calls, q);
    var outcome := Select(st, q).1;
    if outcome.Selected? { TierIsInTier(cfg, calls, q, outcome.channel); }
  }

  /** In particular a channel that is cooling, disabled or unhealthy is returned only if every channel
      that could be is. */
  lemma UsableFirst(cfg: Config, calls: seq<Call>, q: Query)
    requires q.now > 0.0 && exists c <- q.channels :: IsUsable(cfg, calls, q, c)
    ensures var outcome := Select(Run(cfg, NEW_STATE, calls), q).1;
            outcome.Selected? && outcome.channel in q.channels && IsUsable(cfg, calls, q, outcome.channel)
  {
    hide Select, InTier, Run, IsUsable;
    SelectAfterHistory(cfg, calls, q);
    var c :| c in q.channels && IsUsable(cfg, calls, q, c);
    UsableIsOpen(cfg, calls, q, c);
  }

  lemma UsableIsOpen(cfg: Config, calls: seq<Call>, q: Query, c: Channel)
    requires IsUsable(cfg, calls, q, c)
    ensures IsOpen(q, c) && c.slug !in q.excluded
  {
  }

  /** The list that the round-robin goes round holds every channel of the pool that is on the tier, as
      often as it is listed, and no other. */
  lemma TierAfterHistory(cfg: Config, calls: seq<Call>, q: Query, c: Channel)
    requires q.now > 0.0 && Candidates(Run(cfg, NEW_STATE, calls), q) != []
    ensures multiset(Tier(Candidates(Run(cfg, NEW_STATE, calls), q), q.retryTier))[c]
            == if InPool(cfg, calls, q, c) && InTier(cfg, calls, q, c) then multiset(q.channels)[c] else 0
  {
    hide Candidates, InPool, InTier, Run, Filter, TargetPriority, Tier, Above, Priorities;
    var st := Run(cfg, NEW_STATE, calls);
    var cs := Candidates(st, q);
    PoolIsCandidates(cfg, calls, q);
    TierIsInTier(cfg, calls, q, c);
    CandidateCount(st, q, c);
    TierCount(cs, q.retryTier, c);
    if c in cs { OnTarget(cs, q.retryTier, c); }
  }

  lemma OnTarget(cs: seq<Channel>, tier: nat, c: Channel)
    requires c in cs
    ensures c.priority == TargetPriority(cs, tier) <==>
              Above(cs, c.priority) == if tier < |Priorities(cs)| then tier else |Priorities(cs)| - 1
  {
    hide TargetPriority, Above;
    TargetRank(cs, tier);
    SameRank(cs, c.priority, TargetPriority(cs, tier));
  }


  /** A candidate is listed as often as in the model's list. */
  lemma CandidateCount(st: State, q: Query, c: Channel)
    ensures multiset(Candidates(st, q))[c] == if c in Candidates(st, q) then multiset(q.channels)[c] else 0
  {
    hide Filter, IsAvailable, IsLimited;
    FilterCount(q.channels, (d: Channel) => IsAvailable(st, q, d), c);
    FilterCount(q.channels, (d: Channel) => d.slug !in q.excluded && !IsLimited(q, d), c);
    assert Available(st, q) == Filter(q.channels, (d: Channel) => IsAvailable(st, q, d));
    assert Unlimited(q) == Filter(q.channels, (d: Channel) => d.slug !in q.excluded && !IsLimited(q, d));
    assert forall cs: seq<Channel> :: c !in cs ==> multiset(cs)[c] == 0;
  }

  lemma TierCount(cs: seq<Channel>, tier: nat, c: Channel)
    requires cs != []
    ensures multiset(Tier(cs, tier))[c] == if c.priority == TargetPriority(cs, tier) then multiset(cs)[c] else 0
  {
    hide Filter, TargetPriority, SortChannels;
    var p := TargetPriority(cs, tier);
    FilterCount(SortChannels(cs), (d: Channel) => d.priority == p, c);
    assert Tier(cs, tier) == Filter(SortChannels(cs), (d: Channel) => d.priority == p);
  }

  /** Two priorities with as many above them are the same. */
  lemma SameRank(cs: seq<Channel>, p: int, p': int)
    requires p in Priorities(cs) && p' in Priorities(cs)
    ensures Above(cs, p) == Above(cs, p') <==> p == p'
  {
    if p < p' { FewerAbove(Priorities(cs), p, p'); }
    if p' < p { FewerAbove(Priorities(cs), p', p); }
  }

  lemma FewerAbove(ps: set<int>, lo: int, hi: int)
    requires hi in ps && lo < hi
    ensures |Higher(ps, hi)| < |Higher(ps, lo)|
  {
    var high, low := Higher(ps, hi), Higher(ps, lo);
    assert high <= low - {hi} && hi in low;
    SubsetSize(high, low - {hi});
  }

  lemma {:induction false} SubsetSize(xs: set<int>, ys: set<int>)
    requires xs <= ys
    ensures |xs| <= |ys|
  {
    if |xs| > 0 {
      Inhabited(xs);
      var x :| x in xs;
      SubsetSize(xs - {x}, ys - {x});
    }
  }

  // ---------------------------------------------------------------- the order of the list

  lemma FirstDiffers(a: string, b: string)
    requires a != "" && b != "" && a[0] != b[0]
    ensures !(|a| <= |b| && a == b[..|a|])
    ensures (exists k :: 0 <= k < |a| && k < |b| && a[..k] == b[..k] && a[k] < b[k]) <==> a[0] < b[0]
  {
    assert |a| <= |b| ==> b[..|a|][0] == b[0];
    forall k | 0 <= k < |a| && k < |b| ensures a[..k] == b[..k] ==> k == 0 {
      assert k > 0 ==> a[..k][0] == a[0] && b[..k][0] == b[0];
    }
    assert a[..0] == b[..0];
  }

  /** What the definition asks for, past a first character in common. */
  lemma FirstAgrees(a: string, b: string)
    requires a != "" && b != "" && a[0] == b[0]
    ensures |a| <= |b| && a == b[..|a|] <==> |a[1..]| <= |b[1..]| && a[1..] == b[1..][..|a[1..]|]
    ensures (exists k :: 0 <= k < |a| && k < |b| && a[..k] == b[..k] && a[k] < b[k])
            <==> exists k :: 0 <= k < |a[1..]| && k < |b[1..]| && a[1..][..k] == b[1..][..k] && a[1..][k] < b[1..][k]
  {
    var a', b' := a[1..], b[1..];
    assert a == [a[0]] + a' && b == [b[0]] + b';
    if |a| <= |b| { assert b[..|a|] == [b[0]] + b'[..|a'|] && b[..|a|][1..] == b'[..|a'|]; }
    if k :| 0 <= k < |a'| && k < |b'| && a'[..k] == b'[..k] && a'[k] < b'[k] {
      assert a[..k + 1] == [a[0]] + a'[..k] && b[..k + 1] == [b[0]] + b'[..k] && a[k + 1] < b[k + 1];
    }
    if k :| 0 <= k < |a| && k < |b| && a[..k] == b[..k] && a[k] < b[k] {
      assert k > 0 && a'[..k - 1] == a[..k][1..] && b'[..k - 1] == b[..k][1..] && a'[k - 1] < b'[k - 1];
    }
  }

  /** Slugs are compared as strings are: a prefix comes first, otherwise the first difference counts. */
  lemma {:induction false} SlugLeIs(a: string, b: string)
    ensures SlugLe(a, b) <==>
              || (|a| <= |b| && a == b[..|a|])
              || exists k :: 0 <= k < |a| && k < |b| && a[..k] == b[..k] && a[k] < b[k]
  {
    if a != "" && b != "" && a[0] == b[0] {
      SlugLeIs(a[1..], b[1..]);
      FirstAgrees(a, b);
    } else if a != "" && b != "" {
      FirstDiffers(a, b);
    }
  }

  /** Higher priorities come first, and slugs in their order within one priority. */
  lemma SortedBy(cs: seq<Channel>, i: nat, j: nat)
    requires i < j < |SortChannels(cs)|
    ensures var a, b := SortChannels(cs)[i], SortChannels(cs)[j];
            a.priority > b.priority || (a.priority == b.priority && SlugLe(a.slug, b.slug))
  {
  }

  /** The channels with one priority and one slug, in the order listed. */
  function Keyed(cs: seq<Channel>, priority: int, slug: string): seq<Channel> {
    if cs == [] then []
    else (if cs[0].priority == priority && cs[0].slug == slug then [cs[0]] else []) + Keyed(cs[1..], priority, slug)
  }

  lemma SameKeyLe(a: Channel, b: Channel)
    ensures a.priority == b.priority && a.slug == b.slug ==> Le(a, b)
  {
    SlugTotal(a.slug, a.slug);
  }

  lemma SortedTail(cs: seq<Channel>)
    requires cs != [] && IsSorted(cs)
    ensures IsSorted(cs[1..])
  {
  }

  lemma KeyedCons(c: Channel, cs: seq<Channel>, priority: int, slug: string)
    ensures Keyed([c] + cs, priority, slug) == Keyed([c], priority, slug) + Keyed(cs, priority, slug)
    ensures Keyed([c], priority, slug) == if c.priority == priority && c.slug == slug then [c] else []
  {
    assert ([c] + cs)[1..] == cs && [c][1..] == [];
  }

  /** Inserting goes past the first channel, or stops before it. */
  lemma InsertIs(c: Channel, cs: seq<Channel>)
    requires IsSorted(cs)
    ensures cs == [] || Le(c, cs[0]) ==> Insert(c, cs) == [c] + cs
    ensures cs != [] && !Le(c, cs[0]) ==> IsSorted(cs[1..]) && Insert(c, cs) == [cs[0]] + Insert(c, cs[1..])
  {
    hide Le;
    if cs != [] { SortedTail(cs); }
  }

  lemma {:induction false} InsertKeyed(c: Channel, cs: seq<Channel>, priority: int, slug: string)
    requires IsSorted(cs)
    ensures Keyed(Insert(c, cs), priority, slug) == Keyed([c], priority, slug) + Keyed(cs, priority, slug)
  {
    hide IsSorted, SlugLe, Le, Insert, Keyed;
    InsertIs(c, cs);
    if cs == [] || Le(c, cs[0]) {
      KeyedCons(c, cs, priority, slug);
    } else {
      var d, rest := cs[0], cs[1..];
      assert cs == [d] + rest;
      SameKeyLe(c, d);
      InsertKeyed(c, rest, priority, slug);
      KeyedCons(d, Insert(c, rest), priority, slug);
      KeyedCons(d, rest, priority, slug);
      KeyedCons(c, [], priority, slug);
    }
  }

  /** The sort is stable: channels that agree in priority and slug stay in the order listed. */
  lemma {:induction false} SortIsStable(cs: seq<Channel>, priority: int, slug: string)
    ensures Keyed(SortChannels(cs), priority, slug) == Keyed(cs, priority, slug)
  {
    hide Insert, IsSorted;
    if cs != [] {
      SortIsStable(cs[1..], priority, slug);
      InsertKeyed(cs[0], SortChannels(cs[1..]), priority, slug);
    }
  }
}
