/**
 `InMemoryRateLimiter` (services/rate_limiter.py): a counter for each key in a map whose entries
 expire 60 seconds after the last write. Times are in seconds and never decrease.
 */
module RateLimiter {

  const TTL := 60.0

  /** A cached counter and the time of its last write. */
  datatype Counter = Counter(count: nat, written: real)

  /** A missing or expired counter reads as 0. */
  function Read(counters: map<string, Counter>, key: string, now: real): nat {
    if key in counters && now < counters[key].written + TTL then counters[key].count else 0
  }

  class InMemoryRateLimiter {
    var counters: map<string, Counter>

    constructor ()
      ensures counters == map[]
    {
      counters := map[];
    }

    /** The clock is read twice: for the lookup, and for the write that renews the expiry. */
    method Check(key: string, limit: int, now: real, now': real) returns (allowed: bool)
      modifies this
      ensures allowed == Allows(old(counters), key, limit, now)
      ensures counters == Write(old(counters), key, limit, now, now')
    {
      var count := Read(counters, key, now);
      if count >= limit {
        return false;
      }
      counters := counters[key := Counter(count + 1, now')];
      return true;
    }
  }

  predicate Allows(counters: map<string, Counter>, key: string, limit: int, now: real) {
    Read(counters, key, now) < limit
  }

  function Write(counters: map<string, Counter>, key: string, limit: int, now: real, now': real): map<string, Counter> {
    if Allows(counters, key, limit, now) then counters[key := Counter(Read(counters, key, now) + 1, now')] else counters
  }

  // ---------------------------------------------------------------- runs

  /** A call of `check`, with its two clock readings. */
  datatype Check = Check(key: string, limit: int, now: real, now': real)

  function Run(cs: seq<Check>): map<string, Counter> {
    if cs == [] then map[]
    else
      var c := cs[|cs| - 1];
      Write(Run(cs[..|cs| - 1]), c.key, c.limit, c.now, c.now')
  }

  /** An accepted check: when the counter was looked up and when it was written. */
  datatype Accept = Accept(lookup: real, write: real)

  /** The accepted checks for a key, in order. */
  function Accepted(cs: seq<Check>, key: string): seq<Accept> {
    if cs == [] then []
    else
      var init, c := cs[..|cs| - 1], cs[|cs| - 1];
      Accepted(init, key)
      + if c.key == key && Allows(Run(init), key, c.limit, c.now) then [Accept(c.now, c.now')] else []
  }

  /** The clock never runs backwards, within a call or between calls. */
  predicate Timely(cs: seq<Check>) {
    && (forall k | 0 <= k < |cs| :: cs[k].now <= cs[k].now')
    && (forall j, k | 0 <= j < k < |cs| :: cs[j].now' <= cs[k].now)
  }

  predicate LimitIs(cs: seq<Check>, key: string, limit: int) {
    forall k | 0 <= k < |cs| && cs[k].key == key :: cs[k].limit == limit
  }

  // ---------------------------------------------------------------- the counter, from the history alone

  /** How many accepts lie in the unbroken chain that ends now: each less than 60 seconds before
      the lookup that follows it. */
  function Chain(accepts: seq<Accept>, now: real): nat {
    if accepts == [] then 0
    else
      var last := accepts[|accepts| - 1];
      if now < last.write + 60.0 then 1 + Chain(accepts[..|accepts| - 1], last.lookup) else 0
  }

  lemma ChainSnoc(accepts: seq<Accept>, a: Accept, now: real)
    ensures Chain(accepts + [a], now) == if now < a.write + 60.0 then 1 + Chain(accepts, a.lookup) else 0
  {
    assert (accepts + [a])[..|accepts|] == accepts;
  }

  /** After any run the counter of a key, read at any time, is the length of that chain: the
      limiter counts on as long as no 60 seconds pass without an accept. A check is accepted
      exactly when the chain is shorter than its limit. */
  lemma {:induction false} CounterIsChain(cs: seq<Check>, key: string, now: real)
    ensures Read(Run(cs), key, now) == Chain(Accepted(cs, key), now)
  {
    hide Chain;
    if cs == [] {
      NoChain(now);
    } else {
      var init, c := cs[..|cs| - 1], cs[|cs| - 1];
      CounterIsChain(init, key, now);
      if c.key == key && Allows(Run(init), key, c.limit, c.now) {
        CounterIsChain(init, key, c.now);
        ChainSnoc(Accepted(init, key), Accept(c.now, c.now'), now);
      } else {
        assert Accepted(init, key) + [] == Accepted(init, key);
      }
    }
  }

  /** So a check is accepted exactly when that chain is shorter than its limit. */
  lemma AcceptedExactly(cs: seq<Check>, c: Check)
    ensures Accepted(cs + [c], c.key)
            == Accepted(cs, c.key) + if Chain(Accepted(cs, c.key), c.now) < c.limit then [Accept(c.now, c.now')] else []
  {
    hide Chain;
    assert (cs + [c])[..|cs|] == cs;
    CounterIsChain(cs, c.key, c.now);
  }

  lemma NoChain(now: real)
    ensures Chain([], now) == 0
  {
  }

  // ---------------------------------------------------------------- the sliding window

  /** Accepts within the half-open window of 60 seconds from s. */
  function InWindow(accepts: seq<Accept>, s: real): nat {
    if accepts == [] then 0
    else
      var last := accepts[|accepts| - 1];
      InWindow(accepts[..|accepts| - 1], s) + if s <= last.write < s + 60.0 then 1 else 0
  }

  predicate InOrder(accepts: seq<Accept>) {
    (forall k | 0 <= k < |accepts| :: accepts[k].lookup <= accepts[k].write)
    && (forall j, k | 0 <= j < k < |accepts| :: accepts[j].write <= accepts[k].lookup)
  }

  predicate AllBefore(accepts: seq<Accept>, t: real) {
    forall k | 0 <= k < |accepts| :: accepts[k].write <= t
  }

  /** Within a window the chain never breaks, because every accept renews the expiry. */
  lemma {:induction false} WindowWithinChain(accepts: seq<Accept>, s: real, t: real)
    requires InOrder(accepts) && AllBefore(accepts, t) && t < s + 60.0
    ensures InWindow(accepts, s) <= Chain(accepts, t)
  {
    if accepts != [] {
      var init, last := accepts[..|accepts| - 1], accepts[|accepts| - 1];
      if last.write >= s {
        WindowWithinChain(init, s, last.lookup);
      } else {
        WindowEmpty(accepts, s);
      }
    }
  }

  lemma {:induction false} WindowEmpty(accepts: seq<Accept>, s: real)
    requires forall k | 0 <= k < |accepts| :: accepts[k].write < s
    ensures InWindow(accepts, s) == 0
  {
    if accepts != [] { WindowEmpty(accepts[..|accepts| - 1], s); }
  }

  lemma {:induction false} AcceptedInOrder(cs: seq<Check>, key: string)
    requires Timely(cs)
    ensures InOrder(Accepted(cs, key))
    ensures cs != [] ==> AllBefore(Accepted(cs, key), cs[|cs| - 1].now')
    ensures cs == [] ==> Accepted(cs, key) == []
  {
    hide Allows;
    if cs != [] {
      var init := cs[..|cs| - 1];
      AcceptedInOrder(init, key);
      if init != [] { assert init[|init| - 1].now' <= cs[|cs| - 1].now; }
    }
  }

  /** A true sliding-window limit: in every run with a constant limit for the key, every half-open
      window of 60 seconds contains at most `limit` accepted checks. */
  lemma {:induction false} SlidingWindow(cs: seq<Check>, key: string, limit: int, s: real)
    requires Timely(cs) && LimitIs(cs, key, limit)
    ensures InWindow(Accepted(cs, key), s) <= if limit > 0 then limit else 0
  {
    hide Chain;
    if cs != [] {
      var init, c := cs[..|cs| - 1], cs[|cs| - 1];
      SlidingWindow(init, key, limit, s);
      if c.key == key && Allows(Run(init), key, c.limit, c.now) {
        var before := Accepted(init, key);
        assert (before + [Accept(c.now, c.now')])[..|before|] == before;
        if s <= c.now' < s + 60.0 {
          AcceptedInOrder(init, key);
          CounterIsChain(init, key, c.now);
          if init != [] { assert init[|init| - 1] == cs[|init| - 1]; }
          WindowWithinChain(before, s, c.now);
        }
      } else {
        assert Accepted(init, key) + [] == Accepted(init, key);
      }
    }
  }
}
