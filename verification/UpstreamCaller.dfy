/**
 `upstream_call_with_retry` (services/upstream_caller.py), with the status table of
 services/retry_policy.py and channel resolution reduced to `select`.
 */
module UpstreamCaller {
  import opened Wrappers
  import opened ChannelOrder
  import opened ChannelSelector
  import opened ChannelSelectorLaws

  /** What the upstream does with one dispatch; an error may carry a status code. */
  datatype Response = Ok | Error(status: Option<int>)

  predicate ShouldRetry(status: Option<int>) {
    match status
    case None => true
    case Some(code) => code !in {400, 401, 403, 404} && (code in {429, 500, 502, 503} || 500 <= code < 600)
  }

  /** Which errors are retried: those without a status, too many requests, and server errors. */
  lemma RetriesExactly(status: Option<int>)
    ensures ShouldRetry(status) <==> status == None || status.value == 429 || 500 <= status.value <= 599
  {
  }

  /** Everything outside the loop's control during one attempt: the answer to the dispatch, the
      clock, the accounts that are rate-limited when the next channel is resolved, and whether
      the channel chosen then has a usable address and key. */
  datatype Attempt = Attempt(response: Response, failedAt: real, disabledAt: real, selectedAt: real, limited: set<int>,
                             usable: bool)

  datatype Result = Answered(slug: string) | GaveUp

  /** The run of the loop: channels dispatched to, answers received. */
  datatype Trace = Trace(slugs: seq<string>, responses: seq<Response>)

  ghost function Slugs(channels: seq<Channel>): set<string> {
    set c | c in channels :: c.slug
  }

  /** A slug is dispatched to again only when every channel of the model has been dispatched to. */
  ghost predicate ExploresFirst(slugs: seq<string>, all: set<string>) {
    forall i, j | 0 <= i < j < |slugs| && slugs[i] == slugs[j] != "" ::
      forall s <- all :: s in slugs[..j]
  }

  ghost predicate Tried(tried: set<string>, slugs: seq<string>) {
    "" !in tried && (forall s <- tried :: s in slugs) && (forall s <- slugs :: s == "" || s in tried)
  }

  /** The selector's records after the reports of a trace: each dispatch to a named channel is
      reported once, as a failure or as a success. */
  ghost function Reported(cfg: Config, st: State, t: Trace, attempts: seq<Attempt>): State
    requires |t.slugs| == |t.responses| <= |attempts|
    decreases |t.slugs|
  {
    if t.slugs == [] then st
    else
      var n := |t.slugs| - 1;
      var init := Reported(cfg, st, Trace(t.slugs[..n], t.responses[..n]), attempts);
      ReportOne(cfg, init, t.slugs[n], t.responses[n], attempts[n])
  }

  function ReportOne(cfg: Config, st: State, slug: string, r: Response, a: Attempt): State {
    if slug == "" then st
    else if r.Ok? then Succeed(st, slug)
    else Fail(cfg, st, slug, a.failedAt, a.disabledAt)
  }

  function Extend(t: Trace, slug: string, r: Response): Trace {
    Trace(t.slugs + [slug], t.responses + [r])
  }

  lemma ReportedSnoc(cfg: Config, st: State, t: Trace, attempts: seq<Attempt>, slug: string)
    requires |t.slugs| == |t.responses| < |attempts|
    ensures var a := attempts[|t.slugs|];
            Reported(cfg, st, Extend(t, slug, a.response), attempts)
            == ReportOne(cfg, Reported(cfg, st, t, attempts), slug, a.response, a)
  {
    var t' := Extend(t, slug, attempts[|t.slugs|].response);
    assert t'.slugs[..|t.slugs|] == t.slugs && t'.responses[..|t.slugs|] == t.responses;
  }

  /** Why no further channel could be resolved. */
  ghost predicate NothingLeft(a: Attempt, channels: seq<Channel>, slugs: seq<string>) {
    !a.usable || channels == []
    || forall c <- channels :: c.slug == "" || c.slug !in slugs ==> c.account.Some? && c.account.value in a.limited
  }

  lemma SlugsPermuted(xs: seq<Channel>, ys: seq<Channel>)
    requires multiset(xs) == multiset(ys)
    ensures forall c :: c in xs <==> c in ys
    ensures Slugs(xs) == Slugs(ys)
  {
    assert forall c :: c in xs <==> c in multiset(xs);
    assert forall c :: c in ys <==> c in multiset(ys);
  }

  /** What `select` returns for a retry: a channel of the list, and a tried one only if all are. */
  lemma RetryChoice(st: State, q: Query)
    ensures var outcome := Select(st, q).1;
            && (outcome.Selected? ==>
                  outcome.channel.slug in Slugs(q.channels)
                  && (outcome.channel.slug in q.excluded ==> Slugs(q.channels) <= q.excluded))
            && (!outcome.Selected? ==>
                  q.channels == []
                  || forall c <- q.channels ::
                       c.slug !in q.excluded ==> c.account.Some? && c.account.value in q.limited)
  {
    hide Select, Candidates;
    SelectSpecification(st, q);
  }

  lemma ExploresSnoc(slugs: seq<string>, all: set<string>, tried: set<string>, slug: string)
    requires ExploresFirst(slugs, all) && Tried(tried, slugs)
    requires slug in tried ==> all <= tried
    ensures ExploresFirst(slugs + [slug], all)
    ensures Tried(if slug == "" then tried else tried + {slug}, slugs + [slug])
  {
    var more := slugs + [slug];
    forall i, j | 0 <= i < j < |more| && more[i] == more[j] != "" ensures forall s <- all :: s in more[..j] {
      assert more[..j] == slugs[..j];
      if j == |slugs| {
        assert slugs[i] in slugs;
        assert slugs[..j] == slugs;
      }
    }
  }

  /** What holds of every run of the loop:
      - the first dispatch goes to the channel given, the others to channels of the model;
      - a channel is repeated only when all have been dispatched to;
      - no dispatch follows a success or a non-retryable status. */
  ghost predicate Sound(t: Trace, initial: string, all: set<string>, attempts: seq<Attempt>) {
    && |t.slugs| == |t.responses| <= |attempts|
    && (t.slugs != [] ==> t.slugs[0] == initial)
    && (forall k | 0 <= k < |t.responses| :: t.responses[k] == attempts[k].response)
    && (forall k | 1 <= k < |t.slugs| :: t.slugs[k] in all)
    && ExploresFirst(t.slugs, all)
    && (forall k | 0 <= k < |t.responses| - 1 :: Retryable(t.responses[k]))
  }

  predicate Retryable(r: Response) {
    r.Error? && ShouldRetry(r.status)
  }

  lemma SoundSnoc(t: Trace, initial: string, all: set<string>, attempts: seq<Attempt>, tried: set<string>, slug: string)
    requires Sound(t, initial, all, attempts) && |t.slugs| < |attempts| && Tried(tried, t.slugs)
    requires if t.slugs == [] then slug == initial else slug in all && Retryable(t.responses[|t.responses| - 1])
    requires slug in tried ==> all <= tried
    ensures var t' := Extend(t, slug, attempts[|t.slugs|].response);
            && Sound(t', initial, all, attempts)
            && Tried(if slug == "" then tried else tried + {slug}, t'.slugs)
            && |t'.slugs| == |t.slugs| + 1 && t'.slugs[|t.slugs|] == slug
            && t'.responses[|t.slugs|] == attempts[|t.slugs|].response
  {
    hide ExploresFirst, Tried, Retryable;
    var r := attempts[|t.slugs|].response;
    var t' := Extend(t, slug, r);
    ExploresSnoc(t.slugs, all, tried, slug);
    forall k | 0 <= k < |t'.responses| ensures t'.responses[k] == attempts[k].response {
      if k < |t.responses| { assert t'.responses[k] == t.responses[k]; }
    }
    forall k | 1 <= k < |t'.slugs| ensures t'.slugs[k] in all {
      if k < |t.slugs| { assert t'.slugs[k] == t.slugs[k]; }
    }
    forall k | 0 <= k < |t'.responses| - 1 ensures Retryable(t'.responses[k]) {
      assert t'.responses[k] == t.responses[k];
    }
  }

  lemma NothingTried(initial: string, all: set<string>, attempts: seq<Attempt>)
    ensures Sound(Trace([], []), initial, all, attempts) && Tried({}, [])
  {
  }

  /** Why the loop gives up before its last attempt, if the last error was retryable. */
  lemma LeftExplained(a: Attempt, q: Query, tried: set<string>, slugs: seq<string>, channels: seq<Channel>)
    requires q.excluded == tried && q.limited == a.limited && Tried(tried, slugs)
    requires forall c :: c in channels <==> c in q.channels
    requires q.channels == []
             || forall c <- q.channels :: c.slug !in q.excluded ==> c.account.Some? && c.account.value in q.limited
    ensures NothingLeft(a, channels, slugs)
  {
    if q.channels == [] && channels != [] { assert channels[0] in q.channels; }
    if q.channels != [] {
      forall c <- channels | c.slug == "" || c.slug !in slugs ensures c.account.Some? && c.account.value in a.limited {
        assert c in q.channels;
      }
    }
  }

  // ---------------------------------------------------------------- tier descent

  /** The slug belongs to a channel the query may choose, on the tier it asks for: that many distinct
      priorities lie above it among the candidates, or all the others if there are fewer. */
  ghost predicate Descends(st: State, q: Query, slug: string) {
    exists c :: c in Candidates(st, q) && c.slug == slug && OnTier(Candidates(st, q), q.retryTier, c)
  }

  ghost predicate OnTier(cs: seq<Channel>, tier: nat, c: Channel) {
    Above(cs, c.priority) == if tier < |Priorities(cs)| then tier else |Priorities(cs)| - 1
  }

  ghost function Named(slugs: seq<string>): set<string> {
    set s | s in slugs && s != ""
  }

  function Prefix(t: Trace, k: nat): Trace
    requires k <= |t.slugs| == |t.responses|
  {
    Trace(t.slugs[..k], t.responses[..k])
  }

  /** The call of `select` that follows the trace t: every channel dispatched to is excluded, and the
      tier is the number of dispatches. */
  ghost function NextQuery(model: string, channels: seq<Channel>, t: Trace, a: Attempt): Query {
    Query(model, channels, Named(t.slugs), |t.slugs|, a.limited, a.selectedAt)
  }

  /** After the trace t, with all its reports made, slug is what `select` may choose. */
  ghost predicate MayFollow(cfg: Config, st: State, model: string, channels: seq<Channel>, t: Trace,
                            attempts: seq<Attempt>, slug: string)
    requires 0 < |t.slugs| == |t.responses| <= |attempts|
  {
    Descends(Reported(cfg, st, t, attempts), NextQuery(model, channels, t, attempts[|t.slugs| - 1]), slug)
  }

  /** Every dispatch but the first goes to a channel that `select` may choose at that point. */
  ghost predicate Descended(cfg: Config, st: State, model: string, channels: seq<Channel>, t: Trace,
                            attempts: seq<Attempt>)
    requires |t.slugs| == |t.responses| <= |attempts|
  {
    forall k | 0 < k < |t.slugs| :: MayFollow(cfg, st, model, channels, Prefix(t, k), attempts, t.slugs[k])
  }

  lemma DescendedSnoc(cfg: Config, st: State, model: string, channels: seq<Channel>, t: Trace,
                      attempts: seq<Attempt>, slug: string, r: Response)
    requires |t.slugs| == |t.responses| < |attempts|
    requires Descended(cfg, st, model, channels, t, attempts)
    requires t.slugs != [] ==> MayFollow(cfg, st, model, channels, t, attempts, slug)
    ensures Descended(cfg, st, model, channels, Extend(t, slug, r), attempts)
  {
    hide MayFollow;
    var t' := Extend(t, slug, r);
    forall k | 0 < k < |t'.slugs|
      ensures MayFollow(cfg, st, model, channels, Prefix(t', k), attempts, t'.slugs[k])
    {
      if k < |t.slugs| {
        assert Prefix(t', k) == Prefix(t, k);
        assert MayFollow(cfg, st, model, channels, Prefix(t, k), attempts, t.slugs[k]);
      } else {
        assert Prefix(t', k) == t;
      }
    }
  }

  lemma ChoiceDescends(st: State, q: Query)
    ensures var outcome := Select(st, q).1; outcome.Selected? ==> Descends(st, q, outcome.channel.slug)
  {
    hide Select, Candidates;
    SelectSpecification(st, q);
    var outcome := Select(st, q).1;
    if outcome.Selected? {
      assert outcome.channel in Candidates(st, q) && OnTier(Candidates(st, q), q.retryTier, outcome.channel);
    }
  }

  /** Neither the counters nor the order of the channels matter for who may be chosen. */
  lemma SameDescent(st: State, counters: map<string, nat>, q: Query, channels: seq<Channel>, slug: string)
    requires multiset(q.channels) == multiset(channels) && Descends(st.(counters := counters), q, slug)
    ensures Descends(st, q.(channels := channels), slug)
  {
    hide Candidates;
    var cs, cs' := Candidates(st.(counters := counters), q), Candidates(st, q.(channels := channels));
    CountersIrrelevant(st, counters, q);
    CandidatesPermuted(st, q, q.(channels := channels));
    var c :| c in cs && c.slug == slug && OnTier(cs, q.retryTier, c);
    SlugsPermuted(cs, cs');
    assert Priorities(cs) == Priorities(cs');
    assert OnTier(cs', q.retryTier, c);
  }

  lemma CountersIrrelevant(st: State, counters: map<string, nat>, q: Query)
    ensures Candidates(st.(counters := counters), q) == Candidates(st, q)
  {
    hide Filter;
    var st' := st.(counters := counters);
    FilterCong(q.channels, (c: Channel) => IsAvailable(st', q, c), (c: Channel) => IsAvailable(st, q, c));
    assert Available(st', q) == Filter(q.channels, (c: Channel) => IsAvailable(st', q, c));
    assert Available(st, q) == Filter(q.channels, (c: Channel) => IsAvailable(st, q, c));
  }

  lemma TriedAreNamed(tried: set<string>, slugs: seq<string>)
    requires Tried(tried, slugs)
    ensures tried == Named(slugs)
  {
  }

  lemma DescentFollows(cfg: Config, st: State, model: string, channels: seq<Channel>, t: Trace, attempts: seq<Attempt>,
                       counters: map<string, nat>, tried: set<string>, items: seq<Channel>, slug: string)
    requires 0 < |t.slugs| == |t.responses| <= |attempts|
    requires Tried(tried, t.slugs) && multiset(items) == multiset(channels)
    requires var a := attempts[|t.slugs| - 1];
             Descends(Reported(cfg, st, t, attempts).(counters := counters),
                      Query(model, items, tried, |t.slugs|, a.limited, a.selectedAt), slug)
    ensures MayFollow(cfg, st, model, channels, t, attempts, slug)
  {
    hide Descends, Tried, Reported;
    TriedAreNamed(tried, t.slugs);
    var a := attempts[|t.slugs| - 1];
    var q := Query(model, items, tried, |t.slugs|, a.limited, a.selectedAt);
    SameDescent(Reported(cfg, st, t, attempts), counters, q, channels, slug);
  }

  // ---------------------------------------------------------------- the records, read off the trace

  /** Errors of the slug since its last success in the trace. */
  function ErrorsSince(t: Trace, slug: string): nat
    requires |t.slugs| == |t.responses|
    decreases |t.slugs|
  {
    if t.slugs == [] then 0
    else
      var n := |t.slugs| - 1;
      var before := ErrorsSince(Prefix(t, n), slug);
      if t.slugs[n] != slug then before
      else match t.responses[n] case Ok => 0 case Error(_) => before + 1
  }

  predicate HasSucceeded(t: Trace, slug: string)
    requires |t.slugs| == |t.responses|
  {
    exists k :: 0 <= k < |t.slugs| && t.slugs[k] == slug && t.responses[k] == Ok
  }

  /** The last dispatch to the slug. */
  function LastDispatch(t: Trace, slug: string): (r: Option<nat>)
    requires |t.slugs| == |t.responses|
    ensures r.Some? ==> r.value < |t.slugs| && t.slugs[r.value] == slug
    decreases |t.slugs|
  {
    if t.slugs == [] then None
    else
      var n := |t.slugs| - 1;
      if t.slugs[n] == slug then Some(n) else LastDispatch(Prefix(t, n), slug)
  }

  /** The records of a channel, from its last response, whether it ever succeeded, and its errors since:
      after a success no record is left; after an error the channel cools from that error on, its count
      is that of the errors since the last success, on top of the count before the call if there was no
      success, and it is disabled once the count has reached the threshold. */
  ghost predicate RecordsAre(cfg: Config, st: State, st': State, slug: string, last: Option<(Response, Attempt)>,
                             succeeded: bool, errors: nat) {
    match last
    case None =>
      && SameAt(st.failures, st'.failures, slug) && SameAt(st.failureCounts, st'.failureCounts, slug)
      && SameAt(st.disabledUntil, st'.disabledUntil, slug)
    case Some((Ok, _)) => slug !in st'.failures && slug !in st'.failureCounts && slug !in st'.disabledUntil
    case Some((Error(_), a)) =>
      var before := if slug in st.failureCounts && !succeeded then st.failureCounts[slug] else 0;
      && slug in st'.failures && st'.failures[slug] == a.failedAt + cfg.cooldown
      && slug in st'.failureCounts && st'.failureCounts[slug] == before + errors
      && (if cfg.autoDisable && before + errors >= cfg.threshold then
            slug in st'.disabledUntil && st'.disabledUntil[slug] == a.disabledAt + cfg.disableCooldown
          else if succeeded then slug !in st'.disabledUntil
          else SameAt(st.disabledUntil, st'.disabledUntil, slug))
  }

  /** The last response of the slug, with what else happened in that attempt. */
  function LastResponse(t: Trace, attempts: seq<Attempt>, slug: string): Option<(Response, Attempt)>
    requires |t.slugs| == |t.responses| <= |attempts|
  {
    match LastDispatch(t, slug)
    case None => None
    case Some(k) => Some((t.responses[k], attempts[k]))
  }

  ghost predicate RecordsMatch(cfg: Config, st: State, t: Trace, attempts: seq<Attempt>, st': State, slug: string)
    requires |t.slugs| == |t.responses| <= |attempts|
  {
    RecordsAre(cfg, st, st', slug, LastResponse(t, attempts, slug), HasSucceeded(t, slug), ErrorsSince(t, slug))
  }

  lemma SucceededSnoc(t: Trace, slug: string)
    requires 0 < |t.slugs| == |t.responses|
    ensures var n := |t.slugs| - 1;
            HasSucceeded(t, slug) <==> HasSucceeded(Prefix(t, n), slug) || (t.slugs[n] == slug && t.responses[n] == Ok)
  {
    var n := |t.slugs| - 1;
    var init := Prefix(t, n);
    if HasSucceeded(init, slug) {
      var k :| 0 <= k < n && init.slugs[k] == slug && init.responses[k] == Ok;
      assert t.slugs[k] == slug && t.responses[k] == Ok;
    }
    if k :| 0 <= k < |t.slugs| && t.slugs[k] == slug && t.responses[k] == Ok {
      if k < n { assert init.slugs[k] == slug && init.responses[k] == Ok; }
    }
  }

  /** What goes with the last response. */
  predicate Consistent(last: Option<(Response, Attempt)>, succeeded: bool, errors: nat) {
    match last
    case None => !succeeded && errors == 0
    case Some((Ok, _)) => succeeded && errors == 0
    case Some((Error(_), _)) => true
  }

  lemma {:induction false} RecordsReported(cfg: Config, st: State, t: Trace, attempts: seq<Attempt>, slug: string)
    requires |t.slugs| == |t.responses| <= |attempts| && slug != ""
    ensures RecordsMatch(cfg, st, t, attempts, Reported(cfg, st, t, attempts), slug)
    ensures Consistent(LastResponse(t, attempts, slug), HasSucceeded(t, slug), ErrorsSince(t, slug))
    decreases |t.slugs|
  {
    hide HasSucceeded, ReportOne, RecordsAre;
    if t.slugs == [] {
      NoSuccess(t, slug);
      NoRecords(cfg, st, slug);
    } else {
      var n := |t.slugs| - 1;
      var init := Prefix(t, n);
      var st1 := Reported(cfg, st, init, attempts);
      RecordsReported(cfg, st, init, attempts, slug);
      SucceededSnoc(t, slug);
      RecordOne(cfg, st, st1, slug, LastResponse(init, attempts, slug), HasSucceeded(init, slug),
                ErrorsSince(init, slug), t.slugs[n], t.responses[n], attempts[n]);
    }
  }

  lemma NoRecords(cfg: Config, st: State, slug: string)
    ensures RecordsAre(cfg, st, st, slug, None, false, 0)
  {
  }

  lemma NoSuccess(t: Trace, slug: string)
    requires t.slugs == [] && t.responses == []
    ensures !HasSucceeded(t, slug)
  {
  }

  /** What one report does to the records of one channel. */
  lemma ReportAt(cfg: Config, st: State, dispatched: string, r: Response, a: Attempt, slug: string)
    requires slug != ""
    ensures var st' := ReportOne(cfg, st, dispatched, r, a);
            if dispatched != slug then
              && SameAt(st.failures, st'.failures, slug) && SameAt(st.failureCounts, st'.failureCounts, slug)
              && SameAt(st.disabledUntil, st'.disabledUntil, slug)
            else if r == Ok then
              slug !in st'.failures && slug !in st'.failureCounts && slug !in st'.disabledUntil
            else
              var count := (if slug in st.failureCounts then st.failureCounts[slug] else 0) + 1;
              && slug in st'.failures && st'.failures[slug] == a.failedAt + cfg.cooldown
              && slug in st'.failureCounts && st'.failureCounts[slug] == count
              && (if cfg.autoDisable && count >= cfg.threshold then
                    slug in st'.disabledUntil && st'.disabledUntil[slug] == a.disabledAt + cfg.disableCooldown
                  else SameAt(st.disabledUntil, st'.disabledUntil, slug))
  {
  }

  /** One more report. */
  lemma RecordOne(cfg: Config, st: State, st1: State, slug: string, last: Option<(Response, Attempt)>,
                  succeeded: bool, errors: nat, dispatched: string, r: Response, a: Attempt)
    requires slug != "" && RecordsAre(cfg, st, st1, slug, last, succeeded, errors)
    requires Consistent(last, succeeded, errors)
    ensures var st' := ReportOne(cfg, st1, dispatched, r, a);
            if dispatched != slug then RecordsAre(cfg, st, st', slug, last, succeeded, errors)
            else
              var errors' := if r == Ok then 0 else errors + 1;
              && RecordsAre(cfg, st, st', slug, Some((r, a)), succeeded || r == Ok, errors')
              && Consistent(Some((r, a)), succeeded || r == Ok, errors')
  {
    hide ReportOne;
    ReportAt(cfg, st1, dispatched, r, a, slug);
  }

  // ---------------------------------------------------------------- the loop

  /** `resolve_target` for a retry: the next channel, unless `select` raises or the channel
      turns out to be unusable. */
  method ResolveTarget(selector: Selector, model: string, channels: ChannelList, tried: set<string>, tier: nat,
                       a: Attempt, ghost slugs: seq<string>) returns (next: Option<string>)
    requires Tried(tried, slugs)
    modifies selector`counters, channels
    ensures multiset(channels.items) == multiset(old(channels.items))
    ensures next.Some? ==>
              && next.value in Slugs(old(channels.items))
              && (next.value in tried ==> Slugs(old(channels.items)) <= tried)
              && Descends(old(selector.Value()),
                          Query(model, old(channels.items), tried, tier, a.limited, a.selectedAt), next.value)
    ensures next.None? ==> NothingLeft(a, old(channels.items), slugs)
  {
    hide Select, Tried, NothingLeft, SortChannels, Descends;
    ghost var q := Query(model, channels.items, tried, tier, a.limited, a.selectedAt);
    RetryChoice(selector.Value(), q);
    ChoiceDescends(selector.Value(), q);
    var outcome := selector.SelectChannel(model, channels, tried, tier, a.limited, a.selectedAt);
    if outcome.Selected? && a.usable {
      return Some(outcome.channel.slug);
    }
    if a.usable {
      LeftExplained(a, q, tried, slugs, q.channels);
    } else {
      UnusableExplained(a, q.channels, slugs);
    }
    return None;
  }

  /** The report that follows a dispatch. */
  method Report(selector: Selector, slug: string, r: Response, a: Attempt)
    modifies selector`failures, selector`failureCounts, selector`disabledUntil
    ensures selector.Value() == ReportOne(selector.cfg, old(selector.Value()), slug, r, a)
  {
    if slug != "" {
      match r {
        case Ok => selector.ReportSuccess(slug);
        case Error(_) => selector.ReportFailure(slug, a.failedAt, a.disabledAt);
      }
    }
  }

  /** The records of every channel after a trace, whatever the counters. */
  lemma AllRecorded(cfg: Config, st: State, t: Trace, attempts: seq<Attempt>)
    requires |t.slugs| == |t.responses| <= |attempts|
    ensures forall slug, counters: map<string, nat> | slug != "" ::
              RecordsMatch(cfg, st, t, attempts, Reported(cfg, st, t, attempts).(counters := counters), slug)
    ensures Reported(cfg, st, t, attempts).health == st.health
  {
    hide Reported, HasSucceeded, ErrorsSince, LastResponse;
    forall slug, counters: map<string, nat> | slug != ""
      ensures RecordsMatch(cfg, st, t, attempts, Reported(cfg, st, t, attempts).(counters := counters), slug)
    {
      RecordsReported(cfg, st, t, attempts, slug);
    }
    HealthReported(cfg, st, t, attempts);
  }

  lemma {:induction false} HealthReported(cfg: Config, st: State, t: Trace, attempts: seq<Attempt>)
    requires |t.slugs| == |t.responses| <= |attempts|
    ensures Reported(cfg, st, t, attempts).health == st.health
    decreases |t.slugs|
  {
    if t.slugs != [] { HealthReported(cfg, st, Prefix(t, |t.slugs| - 1), attempts); }
  }

  /** Calls the upstream, switching channels on retryable errors. `channels` is the model's list
      for the whole call; `attempts` is the environment, one entry for each attempt. Returns
      the trace beside the result. */
  method UpstreamCallWithRetry(selector: Selector, model: string, channels: ChannelList, initial: string,
                               maxRetries: nat, attempts: seq<Attempt>) returns (result: Result, trace: Trace)
    requires |attempts| == maxRetries + 1
    modifies selector, channels
    ensures multiset(channels.items) == multiset(old(channels.items))
    ensures Sound(trace, initial, Slugs(old(channels.items)), attempts)
    ensures 1 <= |trace.slugs| == |trace.responses| <= maxRetries + 1
    // the result is the fate of the last dispatch, and giving up early has a reason
    ensures var last := |trace.slugs| - 1;
            && (if trace.responses[last].Ok? then result == Answered(trace.slugs[last]) else result == GaveUp)
            && (Retryable(trace.responses[last]) && last < maxRetries ==>
                  NothingLeft(attempts[last], old(channels.items), trace.slugs))
    // every retry descends a tier among the channels left
    ensures Descended(selector.cfg, old(selector.Value()), model, old(channels.items), trace, attempts)
    // every dispatch to a named channel is reported once
    ensures selector.Value()
            == Reported(selector.cfg, old(selector.Value()), trace, attempts).(counters := selector.counters)
    ensures forall s | s != "" ::
              RecordsMatch(selector.cfg, old(selector.Value()), trace, attempts, selector.Value(), s)
    ensures selector.health == old(selector.health)
  {
    hide Sound, Tried, Reported, ShouldRetry, NothingLeft, ReportOne, Slugs, Descends, MayFollow, Descended,
      RecordsMatch;
    ghost var all := Slugs(channels.items);
    ghost var st0 := selector.Value();
    var slug := initial;
    var tried: set<string> := {};
    trace := Trace([], []);
    NothingTried(initial, all, attempts);
    NothingReported(selector.cfg, st0, attempts);
    NothingDescended(selector.cfg, st0, model, channels.items, attempts);
    for attempt := 0 to maxRetries + 1
      invariant multiset(channels.items) == multiset(old(channels.items))
      invariant |trace.slugs| == |trace.responses| == attempt <= maxRetries
      invariant Sound(trace, initial, all, attempts) && Tried(tried, trace.slugs)
      invariant if attempt == 0 then slug == initial else slug in all && Retryable(trace.responses[attempt - 1])
      invariant slug in tried ==> all <= tried
      invariant Descended(selector.cfg, st0, model, old(channels.items), trace, attempts)
      invariant attempt > 0 ==> MayFollow(selector.cfg, st0, model, old(channels.items), trace, attempts, slug)
      invariant selector.Value() == Reported(selector.cfg, st0, trace, attempts).(counters := selector.counters)
    {
      var a := attempts[attempt];
      ReportedSnoc(selector.cfg, st0, trace, attempts, slug);
      DescendedSnoc(selector.cfg, st0, model, old(channels.items), trace, attempts, slug, a.response);
      SoundSnoc(trace, initial, all, attempts, tried, slug);
      ReportKeepsCounters(selector.cfg, Reported(selector.cfg, st0, trace, attempts), slug, a, selector.counters);
      if slug != "" {
        tried := tried + {slug};
      }
      trace := Extend(trace, slug, a.response);
      AllRecorded(selector.cfg, st0, trace, attempts);
      Report(selector, slug, a.response, a);
      if a.response.Ok? {
        return Answered(slug), trace;
      }
      if attempt == maxRetries || !ShouldRetry(a.response.status) {
        return GaveUp, trace;
      }
      SlugsPermuted(channels.items, old(channels.items));
      LeftPermuted(a, channels.items, old(channels.items), trace.slugs);
      ghost var items, counters := channels.items, selector.counters;
      var next := ResolveTarget(selector, model, channels, tried, attempt + 1, a, trace.slugs);
      if next.None? {
        return GaveUp, trace;
      }
      slug := next.value;
      DescentFollows(selector.cfg, st0, model, old(channels.items), trace, attempts, counters, tried, items, slug);
    }
    assert false;
  }

  lemma LeftPermuted(a: Attempt, xs: seq<Channel>, ys: seq<Channel>, slugs: seq<string>)
    requires multiset(xs) == multiset(ys)
    ensures NothingLeft(a, xs, slugs) ==> NothingLeft(a, ys, slugs)
  {
    SlugsPermuted(xs, ys);
    if ys != [] { assert ys[0] in xs; }
    if xs != [] { assert xs[0] in ys; }
  }

  lemma UnusableExplained(a: Attempt, channels: seq<Channel>, slugs: seq<string>)
    requires !a.usable
    ensures NothingLeft(a, channels, slugs)
  {
  }

  lemma NothingDescended(cfg: Config, st: State, model: string, channels: seq<Channel>, attempts: seq<Attempt>)
    ensures Descended(cfg, st, model, channels, Trace([], []), attempts)
  {
  }

  lemma NothingReported(cfg: Config, st: State, attempts: seq<Attempt>)
    ensures Reported(cfg, st, Trace([], []), attempts) == st
  {
  }

  lemma ReportKeepsCounters(cfg: Config, st: State, slug: string, a: Attempt, counters: map<string, nat>)
    ensures ReportOne(cfg, st.(counters := counters), slug, a.response, a)
            == ReportOne(cfg, st, slug, a.response, a).(counters := counters)
  {
    hide Succeed, Fail;
    assert Succeed(st.(counters := counters), slug) == Succeed(st, slug).(counters := counters) by {
      SucceedKeeps(st, slug, counters);
    }
    FailKeeps(cfg, st, slug, a.failedAt, a.disabledAt, counters);
  }

  lemma SucceedKeeps(st: State, slug: string, counters: map<string, nat>)
    ensures Succeed(st.(counters := counters), slug) == Succeed(st, slug).(counters := counters)
  {
  }

  lemma FailKeeps(cfg: Config, st: State, slug: string, at: real, at': real, counters: map<string, nat>)
    ensures Fail(cfg, st.(counters := counters), slug, at, at') == Fail(cfg, st, slug, at, at').(counters := counters)
  {
    hide Get;
  }

  // ---------------------------------------------------------------- descent may skip a channel

  const FIRST := Channel("a", 2, 1, None)
  const SECOND := Channel("b", 2, 1, None)
  const THIRD := Channel("c", 1, 1, None)

  lemma AfterFirst(cfg: Config, st: State, q: Query, at: real, at': real)
    requires st == Fail(cfg, NEW_STATE, "a", at, at')
    requires q == Query("m", [FIRST, SECOND, THIRD], {"a"}, 1, {}, q.now) && q.now > 0.0
    ensures forall c :: c in Candidates(st, q) <==> c == SECOND || c == THIRD
  {
    hide Filter;
    assert SECOND in q.channels && IsAvailable(st, q, SECOND);
    assert THIRD in q.channels && IsAvailable(st, q, THIRD);
    assert SECOND in Available(st, q) && THIRD in Available(st, q);
    assert forall c <- q.channels :: c == FIRST || c == SECOND || c == THIRD;
  }

  /** Two candidates on two tiers: the second tier is that of the channel c. */
  lemma OnlyThird(st: State, q: Query, slug: string)
    requires q.retryTier == 1 && forall c :: c in Candidates(st, q) <==> c == SECOND || c == THIRD
    ensures Descends(st, q, slug) <==> slug == "c"
  {
    hide Candidates;
    var cs := Candidates(st, q);
    assert SECOND in cs && THIRD in cs;
    assert Priorities(cs) == {1, 2};
    assert Higher({1, 2}, 2) == {} && Higher({1, 2}, 1) == {2};
    assert OnTier(cs, 1, THIRD) && !OnTier(cs, 1, SECOND);
  }

  /** Two channels on the first tier, one on the second. When the first one fails it is excluded and
      the tier is the second: the retry goes to c, although b has not been tried. */
  lemma RetrySkipsUntried(cfg: Config, attempts: seq<Attempt>, slug: string)
    requires |attempts| > 0 && attempts[0].selectedAt > 0.0 && attempts[0].limited == {}
    ensures MayFollow(cfg, NEW_STATE, "m", [FIRST, SECOND, THIRD], Trace(["a"], [Error(None)]), attempts, slug)
            <==> slug == "c"
  {
    var t, a := Trace(["a"], [Error(None)]), attempts[0];
    assert t.slugs[..0] == [] && t.responses[..0] == [];
    var st, q := Reported(cfg, NEW_STATE, t, attempts), NextQuery("m", [FIRST, SECOND, THIRD], t, a);
    assert st == Fail(cfg, NEW_STATE, "a", a.failedAt, a.disabledAt);
    hide Reported, Fail, Descends, Candidates;
    AfterFirst(cfg, st, q, a.failedAt, a.disabledAt);
    OnlyThird(st, q, slug);
  }
}
