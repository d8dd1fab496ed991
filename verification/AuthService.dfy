/**
 The lockout in `AdminAuthService.login` (services/auth_service.py of the admin service). Times
 are in seconds and never decrease.
 */
module AuthService {
  import opened Wrappers

  const MAX_FAILURES := 5
  const HOUR := 3600.0
  const LOCK_DURATION := HOUR

  /** The lockout fields of an admin record. */
  datatype Record = Record(failCount: nat, lockedUntil: Option<real>)

  /** An attempt on an existing account: is the password right, the clock when the lock is
      checked, and the clock when a lock is set. */
  datatype Attempt = Attempt(right: bool, checked: real, stamped: real)

  /** All but `Success` answer with the same credentials error. */
  datatype Outcome = Locked | Wrong | Inactive | Success

  predicate IsLocked(r: Record, now: real) {
    r.lockedUntil.Some? && r.lockedUntil.value > now
  }

  function Login(r: Record, active: bool, a: Attempt): (Record, Outcome) {
    if IsLocked(r, a.checked) then (r, Locked)
    else if !a.right then
      var count := r.failCount + 1;
      (Record(count, if count >= MAX_FAILURES then Some(a.stamped + LOCK_DURATION) else r.lockedUntil), Wrong)
    else if !active then (r, Inactive)
    else (Record(0, None), Success)
  }

  class AdminUser {
    var loginFailCount: nat
    var loginLockedUntil: Option<real>
    var active: bool

    function Value(): Record
      reads this
    {
      Record(loginFailCount, loginLockedUntil)
    }

    constructor (active: bool)
      ensures Value() == Record(0, None) && this.active == active
    {
      loginFailCount, loginLockedUntil := 0, None;
      this.active := active;
    }

    method TryLogin(a: Attempt) returns (outcome: Outcome)
      modifies this`loginFailCount, this`loginLockedUntil
      ensures (Value(), outcome) == Login(old(Value()), active, a)
    {
      if loginLockedUntil.Some? && loginLockedUntil.value > a.checked {
        return Locked;
      }
      if !a.right {
        loginFailCount := loginFailCount + 1;
        if loginFailCount >= MAX_FAILURES {
          loginLockedUntil := Some(a.stamped + LOCK_DURATION);
        }
        return Wrong;
      }
      if !active {
        return Inactive;
      }
      loginFailCount := 0;
      loginLockedUntil := None;
      return Success;
    }
  }

  // ---------------------------------------------------------------- stretches of attempts

  function Run(r: Record, active: bool, attempts: seq<Attempt>): Record {
    if attempts == [] then r
    else Login(Run(r, active, attempts[..|attempts| - 1]), active, attempts[|attempts| - 1]).0
  }

  function OutcomeAt(r: Record, active: bool, attempts: seq<Attempt>, k: nat): Outcome
    requires k < |attempts|
  {
    Login(Run(r, active, attempts[..k]), active, attempts[k]).1
  }

  /** The attempts whose password was verified and found wrong. */
  function Wrongs(r: Record, active: bool, attempts: seq<Attempt>): seq<Attempt> {
    if attempts == [] then []
    else
      var n := |attempts| - 1;
      Wrongs(r, active, attempts[..n]) + if OutcomeAt(r, active, attempts, n) == Wrong then [attempts[n]] else []
  }

  predicate NoSuccess(r: Record, active: bool, attempts: seq<Attempt>) {
    forall k | 0 <= k < |attempts| :: OutcomeAt(r, active, attempts, k) != Success
  }

  predicate Timely(attempts: seq<Attempt>) {
    (forall k | 0 <= k < |attempts| :: attempts[k].checked <= attempts[k].stamped)
    && (forall j, k | 0 <= j < k < |attempts| :: attempts[j].stamped <= attempts[k].checked)
  }

  /** How many wrong passwords are free of waiting from a given count on. */
  function Free(failCount: nat): nat {
    if failCount < MAX_FAILURES then MAX_FAILURES - failCount else 1
  }

  predicate Gap(ws: seq<Attempt>, k: nat, free: nat)
    requires 0 < k < |ws|
  {
    ws[k].checked >= ws[k - 1].checked + if k >= free then LOCK_DURATION else 0.0
  }

  ghost predicate Spaced(ws: seq<Attempt>, free: nat) {
    forall k | 0 < k < |ws| :: Gap(ws, k, free)
  }

  lemma SpacedSnoc(ws: seq<Attempt>, w: Attempt, free: nat)
    requires Spaced(ws, free)
    requires ws != [] ==> w.checked >= ws[|ws| - 1].checked + if |ws| >= free then LOCK_DURATION else 0.0
    ensures Spaced(ws + [w], free)
  {
    forall k | 0 < k < |ws + [w]| ensures Gap(ws + [w], k, free) {
      if k < |ws| { assert Gap(ws, k, free); }
    }
  }

  lemma OutcomePrefix(r: Record, active: bool, attempts: seq<Attempt>, n: nat)
    requires n <= |attempts| && NoSuccess(r, active, attempts)
    ensures NoSuccess(r, active, attempts[..n])
  {
    forall k | 0 <= k < n ensures OutcomeAt(r, active, attempts[..n], k) != Success {
      assert attempts[..n][..k] == attempts[..k];
      assert OutcomeAt(r, active, attempts, k) != Success;
    }
  }

  /** What the wrong passwords so far say about the record: the count, and the lock once the free ones
      are used up. */
  ghost predicate Counted(r: Record, ws: seq<Attempt>, r': Record) {
    && r'.failCount == r.failCount + |ws|
    && Spaced(ws, Free(r.failCount))
    && (ws != [] && |ws| >= Free(r.failCount) ==>
          r'.lockedUntil.Some? && r'.lockedUntil.value >= ws[|ws| - 1].checked + LOCK_DURATION)
  }

  /** One more attempt that does not succeed. */
  lemma OneCounted(r: Record, ws: seq<Attempt>, r': Record, active: bool, a: Attempt)
    requires Counted(r, ws, r') && a.checked <= a.stamped && (ws != [] ==> ws[|ws| - 1].checked <= a.checked)
    requires Login(r', active, a).1 != Success
    ensures var (r'', outcome) := Login(r', active, a);
            Counted(r, ws + if outcome == Wrong then [a] else [], r'')
  {
    hide Spaced;
    if Login(r', active, a).1 == Wrong {
      SpacedSnoc(ws, a, Free(r.failCount));
    } else {
      assert ws + [] == ws;
    }
  }

  lemma TimelyPrefix(attempts: seq<Attempt>)
    requires Timely(attempts) && attempts != []
    ensures var n := |attempts| - 1;
            && Timely(attempts[..n]) && attempts[n].checked <= attempts[n].stamped
            && (n > 0 ==> attempts[n - 1].stamped <= attempts[n].checked)
  {
  }

  lemma LastUnsuccessful(r: Record, active: bool, attempts: seq<Attempt>)
    requires NoSuccess(r, active, attempts) && attempts != []
    ensures OutcomeAt(r, active, attempts, |attempts| - 1) != Success
  {
  }

  lemma NothingCounted(r: Record)
    ensures Counted(r, [], r)
  {
  }

  /** The count is kept when a lock expires, so after the free ones every wrong password comes at
      least one lock duration after the one before. */
  lemma {:induction false} WrongsSpaced(r: Record, active: bool, attempts: seq<Attempt>)
    requires Timely(attempts) && NoSuccess(r, active, attempts)
    ensures var ws := Wrongs(r, active, attempts);
            && Counted(r, ws, Run(r, active, attempts))
            && (ws != [] ==> attempts != [] && ws[|ws| - 1].checked <= attempts[|attempts| - 1].stamped)
  {
    hide NoSuccess, Timely, Counted, Login;
    if attempts == [] {
      NothingCounted(r);
    } else {
      var n := |attempts| - 1;
      var init := attempts[..n];
      OutcomePrefix(r, active, attempts, n);
      LastUnsuccessful(r, active, attempts);
      TimelyPrefix(attempts);
      WrongsSpaced(r, active, init);
      OneCounted(r, Wrongs(r, active, init), Run(r, active, init), active, attempts[n]);
    }
  }

  /** In any stretch without a successful login, wrong passwords verified within the time D between
      the first and the last number at most the free ones plus one for each full hour of D. */
  lemma LockoutBound(r: Record, active: bool, attempts: seq<Attempt>)
    requires Timely(attempts) && NoSuccess(r, active, attempts) && Wrongs(r, active, attempts) != []
    ensures var ws := Wrongs(r, active, attempts);
            var d := ws[|ws| - 1].checked - ws[0].checked;
            |ws| <= Free(r.failCount) + (d / HOUR).Floor
  {
    var ws := Wrongs(r, active, attempts);
    WrongsSpaced(r, active, attempts);
    SpanBound(ws, Free(r.failCount));
    var d := ws[|ws| - 1].checked - ws[0].checked;
    if |ws| > Free(r.failCount) {
      var m := |ws| - Free(r.failCount);
      assert d >= m as real * HOUR;
      assert d / HOUR >= m as real;
    }
  }

  lemma {:induction false} SpanBound(ws: seq<Attempt>, free: nat)
    requires ws != [] && free > 0 && Spaced(ws, free)
    ensures var d := ws[|ws| - 1].checked - ws[0].checked;
            d >= 0.0 && (|ws| >= free ==> d >= (|ws| - free) as real * HOUR)
  {
    if |ws| > 1 {
      var init := ws[..|ws| - 1];
      forall k | 0 < k < |init| ensures Gap(init, k, free) { assert Gap(ws, k, free); }
      SpanBound(init, free);
      assert Gap(ws, |ws| - 1, free);
      if |ws| > free { assert (|ws| - free) as real * HOUR == (|init| - free) as real * HOUR + HOUR; }
    }
  }

  /** From a fresh count: at most five, plus one for each full hour. */
  lemma FreshBound(locked: Option<real>, active: bool, attempts: seq<Attempt>)
    requires var r := Record(0, locked);
             Timely(attempts) && NoSuccess(r, active, attempts) && Wrongs(r, active, attempts) != []
    ensures var ws := Wrongs(Record(0, locked), active, attempts);
            |ws| <= 5 + ((ws[|ws| - 1].checked - ws[0].checked) / 3600.0).Floor
  {
    LockoutBound(Record(0, locked), active, attempts);
  }

  // ---------------------------------------------------------------- outcomes, from the history alone

  const CLEAR := Record(0, None)

  /** The wrong passwords verified since the last success. */
  function SinceSuccess(active: bool, attempts: seq<Attempt>): seq<Attempt> {
    if attempts == [] then []
    else
      var n := |attempts| - 1;
      var before := SinceSuccess(active, attempts[..n]);
      match OutcomeAt(CLEAR, active, attempts, n)
      case Success => []
      case Wrong => before + [attempts[n]]
      case _ => before
  }

  /** The record counts the wrong passwords since the last success, and from the fifth on is locked for
      an hour from the last of them; a success clears both. */
  lemma {:induction false} RecordExactly(active: bool, attempts: seq<Attempt>)
    ensures var ws := SinceSuccess(active, attempts);
            Run(CLEAR, active, attempts)
            == Record(|ws|, if |ws| >= 5 then Some(ws[|ws| - 1].stamped + 3600.0) else None)
  {
    if attempts != [] { RecordExactly(active, attempts[..|attempts| - 1]); }
  }

  /** An attempt is turned away exactly when there were five wrong passwords since the last success and
      the hour after the last of them is not over; otherwise the password decides, then the status. */
  lemma OutcomeExactly(active: bool, attempts: seq<Attempt>, a: Attempt)
    ensures var outcome, ws := OutcomeAt(CLEAR, active, attempts + [a], |attempts|), SinceSuccess(active, attempts);
            var locked := |ws| >= 5 && a.checked < ws[|ws| - 1].stamped + 3600.0;
            && (outcome == Locked <==> locked)
            && (outcome == Wrong <==> !locked && !a.right)
            && (outcome == Inactive <==> !locked && a.right && !active)
            && (outcome == Success <==> !locked && a.right && active)
  {
    hide Run, SinceSuccess;
    assert (attempts + [a])[..|attempts|] == attempts;
    RecordExactly(active, attempts);
  }
}
