/**
 * The OTP failure tracker (apps/api/src/wallet/otp-failure-tracker.ts) behind the gate of the emergency flows
 * (verifyEmergencyOtp in apps/api/src/wallet/emergency-recovery.service.ts), and how fast codes can be tried.
 */
module OtpTracker {
  import opened Types

  const MAX_FAILURES: nat := 5
  const LOCK_MS: nat := 900_000

  datatype Limits = Limits(maxFailures: nat, lockMs: nat)

  /** A tracker that can lock: one failure or more, for some time. */
  predicate LimitsOk(m: Limits) {
    m.maxFailures >= 1 && m.lockMs >= 1
  }

  datatype Entry = Entry(count: nat, lockedUntil: Option<nat>)

  type Failures = map<UserId, Entry>

  datatype Recorded = Recorded(remainingAttempts: int, locked: bool, lockSeconds: Option<nat>)

  function Seconds(ms: nat): nat {
    (ms + 999) / 1000
  }

  /** Seconds left for a locked user. A missing time, and the time zero, are no lock. */
  function LockLeft(f: Failures, user: UserId, now: nat): Option<nat> {
    if user !in f || f[user].lockedUntil.None? || f[user].lockedUntil.value == 0 then None
    else if now < f[user].lockedUntil.value then Some(Seconds(f[user].lockedUntil.value - now))
    else None
  }

  /** An expired lock is forgotten when it is looked at. */
  function AfterLook(f: Failures, user: UserId, now: nat): Failures {
    if user in f && f[user].lockedUntil.Some? && f[user].lockedUntil.value != 0 && now >= f[user].lockedUntil.value then f - {user}
    else f
  }

  function CountOf(f: Failures, user: UserId): nat {
    if user in f then f[user].count else 0
  }

  function AfterFailure(m: Limits, f: Failures, user: UserId, now: nat): Failures {
    var count := CountOf(f, user) + 1;
    f[user := Entry(count, if count >= m.maxFailures then Some(now + m.lockMs) else None)]
  }

  function RecordOf(m: Limits, f: Failures, user: UserId): Recorded {
    var count := CountOf(f, user) + 1;
    if count >= m.maxFailures then Recorded(0, true, Some(Seconds(m.lockMs)))
    else Recorded(m.maxFailures - count, false, None)
  }

  class OtpFailureTracker {
    const limits: Limits
    var failures: Failures

    constructor (limits: Limits)
      ensures this.limits == limits && failures == map[]
    {
      this.limits := limits;
      failures := map[];
    }

    method AssertNotLocked(user: UserId, now: nat) returns (left: Option<nat>)
      modifies this
      ensures left == LockLeft(old(failures), user, now)
      ensures failures == AfterLook(old(failures), user, now)
    {
      if user !in failures || failures[user].lockedUntil.None? || failures[user].lockedUntil.value == 0 {
        return None;
      }
      var until := failures[user].lockedUntil.value;
      if now < until {
        return Some(Seconds(until - now));
      }
      failures := failures - {user};
      left := None;
    }

    method RecordFailure(user: UserId, now: nat) returns (r: Recorded)
      modifies this
      ensures r == RecordOf(limits, old(failures), user)
      ensures failures == AfterFailure(limits, old(failures), user, now)
    {
      var count := 1;
      if user in failures {
        count := failures[user].count + 1;
      }
      if count >= limits.maxFailures {
        failures := failures[user := Entry(count, Some(now + limits.lockMs))];
        return Recorded(0, true, Some(Seconds(limits.lockMs)));
      }
      failures := failures[user := Entry(count, None)];
      r := Recorded(limits.maxFailures - count, false, None);
    }

    method Clear(user: UserId)
      modifies this
      ensures failures == old(failures) - {user}
    {
      failures := failures - {user};
    }
  }

  // ---- The gate ----

  predicate SixDigits(otp: string) {
    |otp| == 6 && forall i :: 0 <= i < 6 ==> '0' <= otp[i] <= '9'
  }

  datatype Verdict = BadFormat | Locked(seconds: nat) | NowLocked(seconds: nat) | Invalid(remaining: int) | Passed

  /** One serial call of the gate; `correct` is what TOTP verification would say. */
  function Gate(m: Limits, f: Failures, user: UserId, now: nat, otp: string, correct: bool): (Failures, Verdict) {
    if !SixDigits(otp) then (f, BadFormat)
    else
      match LockLeft(f, user, now)
      case Some(seconds) => (f, Locked(seconds))
      case None =>
        var g := AfterLook(f, user, now);
        if correct then (g - {user}, Passed)
        else
          var r := RecordOf(m, g, user);
          (AfterFailure(m, g, user, now),
           if r.locked && r.lockSeconds.Some? then NowLocked(r.lockSeconds.value) else Invalid(r.remainingAttempts))
  }

  // ---- Runs of attempts ----

  datatype Attempt = Attempt(user: UserId, now: nat, otp: string, correct: bool)

  function After(m: Limits, f: Failures, attempts: seq<Attempt>): Failures
    decreases |attempts|
  {
    if attempts == [] then f
    else
      var a := attempts[0];
      After(m, Gate(m, f, a.user, a.now, a.otp, a.correct).0, attempts[1..])
  }

  function VerdictOf(m: Limits, f: Failures, a: Attempt): Verdict {
    Gate(m, f, a.user, a.now, a.otp, a.correct).1
  }

  /** A verification of this user that was carried out and failed. */
  predicate FailedFor(user: UserId, a: Attempt, v: Verdict) {
    a.user == user && (v.Invalid? || v.NowLocked?)
  }

  function CountFailures(m: Limits, f: Failures, attempts: seq<Attempt>, user: UserId): nat
    decreases |attempts|
  {
    if attempts == [] then 0
    else
      var a := attempts[0];
      (if FailedFor(user, a, VerdictOf(m, f, a)) then 1 else 0)
      + CountFailures(m, Gate(m, f, a.user, a.now, a.otp, a.correct).0, attempts[1..], user)
  }

  predicate NoSuccess(m: Limits, f: Failures, attempts: seq<Attempt>, user: UserId)
    decreases |attempts|
  {
    attempts == []
    || (var a := attempts[0];
        && !(a.user == user && VerdictOf(m, f, a).Passed?)
        && NoSuccess(m, Gate(m, f, a.user, a.now, a.otp, a.correct).0, attempts[1..], user))
  }

  /** The clock never runs backwards. */
  predicate Monotone(attempts: seq<Attempt>) {
    forall i, j :: 0 <= i < j < |attempts| ==> attempts[i].now <= attempts[j].now
  }

  /** Every user is either locked until a time, or below the limit. */
  ghost predicate TrackerOk(m: Limits, f: Failures) {
    forall u :: u in f ==>
                  match f[u].lockedUntil
                  case Some(until) => until > 0
                  case None => f[u].count < m.maxFailures
  }

  lemma GateKeepsOk(m: Limits, f: Failures, a: Attempt)
    requires LimitsOk(m) && TrackerOk(m, f)
    ensures TrackerOk(m, Gate(m, f, a.user, a.now, a.otp, a.correct).0)
  {
  }

  lemma {:induction false} AfterIsOk(m: Limits, f: Failures, attempts: seq<Attempt>)
    requires LimitsOk(m) && TrackerOk(m, f)
    ensures TrackerOk(m, After(m, f, attempts))
    decreases |attempts|
  {
    if attempts != [] {
      GateKeepsOk(m, f, attempts[0]);
      var a := attempts[0];
      AfterIsOk(m, Gate(m, f, a.user, a.now, a.otp, a.correct).0, attempts[1..]);
    }
  }

  /** Failures still possible from time `t` to time `end`: what is left of this round, and one full round a lock. */
  function Budget(m: Limits, f: Failures, user: UserId, t: nat, end: nat): nat
    requires LimitsOk(m) && TrackerOk(m, f) && t <= end
  {
    if user in f && f[user].lockedUntil.Some? then
      var from := if f[user].lockedUntil.value > t then f[user].lockedUntil.value else t;
      if end < from then 0 else m.maxFailures * ((end - from) / m.lockMs + 1)
    else m.maxFailures - CountOf(f, user) + m.maxFailures * ((end - t) / m.lockMs)
  }

  lemma RoundsShrink(m: Limits, t: nat, t': nat, end: nat)
    requires LimitsOk(m) && t <= t' <= end
    ensures (end - t') / m.lockMs <= (end - t) / m.lockMs
    ensures m.maxFailures * ((end - t') / m.lockMs) <= m.maxFailures * ((end - t) / m.lockMs)
  {
    var a, b := (end - t') / m.lockMs, (end - t) / m.lockMs;
    assert a <= b by {
      DivMonotone(end - t', end - t, m.lockMs);
    }
    assert m.maxFailures * a <= m.maxFailures * b;
  }

  lemma DivMonotone(x: nat, y: nat, d: nat)
    requires x <= y && d >= 1
    ensures x / d <= y / d
  {
    var p: int, q: int := x / d, y / d;
    assert d * p <= x && y < d * (q + 1);
    assert p >= q + 1 ==> d * p >= d * (q + 1);
  }

  lemma OneRoundLess(end: nat, from: nat, lock: nat)
    requires lock >= 1 && from + lock <= end
    ensures (end - from) / lock == (end - from - lock) / lock + 1
  {
    var x := end - from;
    var q, r := (x - lock) / lock, (x - lock) % lock;
    assert x == lock * (q + 1) + r;
    QuotientIs(x, lock, q + 1, r);
  }

  lemma QuotientIs(x: nat, d: nat, q: nat, r: nat)
    requires r < d && x == d * q + r
    ensures x / d == q
  {
    var more: int := x / d - q;
    assert d * more == r - x % d;
    assert more >= 1 ==> d * more >= d;
    assert more <= -1 ==> d * more <= 0 - d;
  }

  lemma BudgetShrinks(m: Limits, f: Failures, user: UserId, t: nat, t': nat, end: nat)
    requires LimitsOk(m) && TrackerOk(m, f) && t <= t' <= end
    ensures Budget(m, f, user, t', end) <= Budget(m, f, user, t, end)
  {
    if user in f && f[user].lockedUntil.Some? {
      var until := f[user].lockedUntil.value;
      var from, from' := if until > t then until else t, if until > t' then until else t';
      if from' <= end {
        RoundsShrink(m, from, from', end);
      }
    } else {
      RoundsShrink(m, t, t', end);
    }
  }

  /** One attempt spends what it uses of the budget. */
  lemma AttemptSpends(m: Limits, f: Failures, a: Attempt, user: UserId, end: nat)
    requires LimitsOk(m) && TrackerOk(m, f) && a.now <= end
    requires !(a.user == user && VerdictOf(m, f, a).Passed?)
    ensures var g := Gate(m, f, a.user, a.now, a.otp, a.correct).0;
            TrackerOk(m, g)
            && (if FailedFor(user, a, VerdictOf(m, f, a)) then 1 else 0) + Budget(m, g, user, a.now, end)
               <= Budget(m, f, user, a.now, end)
  {
    GateKeepsOk(m, f, a);
    var g := Gate(m, f, a.user, a.now, a.otp, a.correct).0;
    if FailedFor(user, a, VerdictOf(m, f, a)) {
      FailureSpends(m, f, user, a.now, end);
      assert g == AfterFailure(m, AfterLook(f, user, a.now), user, a.now);
    } else {
      assert (user in g <==> user in f) && (user in f ==> g[user] == f[user]);
    }
  }

  lemma FailureSpends(m: Limits, f: Failures, user: UserId, now: nat, end: nat)
    requires LimitsOk(m) && TrackerOk(m, f) && now <= end && LockLeft(f, user, now).None?
    ensures var g := AfterFailure(m, AfterLook(f, user, now), user, now);
            TrackerOk(m, g) && 1 + Budget(m, g, user, now, end) <= Budget(m, f, user, now, end)
  {
    var look := AfterLook(f, user, now);
    var rounds := (end - now) / m.lockMs;
    assert m.maxFailures * (rounds + 1) == m.maxFailures + m.maxFailures * rounds;
    assert Budget(m, look, user, now, end) == m.maxFailures - CountOf(look, user) + m.maxFailures * rounds;
    if CountOf(look, user) + 1 >= m.maxFailures && now + m.lockMs <= end {
      OneRoundLess(end, now, m.lockMs);
    }
  }

  lemma {:induction false} RunSpends(m: Limits, f: Failures, attempts: seq<Attempt>, user: UserId, t: nat, end: nat)
    requires LimitsOk(m) && TrackerOk(m, f) && t <= end && Monotone(attempts)
    requires forall i :: 0 <= i < |attempts| ==> t <= attempts[i].now <= end
    requires NoSuccess(m, f, attempts, user)
    ensures CountFailures(m, f, attempts, user) <= Budget(m, f, user, t, end)
    decreases |attempts|
  {
    if attempts != [] {
      var a := attempts[0];
      BudgetShrinks(m, f, user, t, a.now, end);
      AttemptSpends(m, f, a, user, end);
      RunSpends(m, Gate(m, f, a.user, a.now, a.otp, a.correct).0, attempts[1..], user, a.now, end);
    }
  }

  /**
   * The rate bound. After any history, a span of attempts without a success for the user contains at most one full
   * round of failed verifications, and one more for every whole lock time the span lasts, however long it is and
   * whatever other users do meanwhile.
   */
  lemma FailureRateIsBounded(m: Limits, history: seq<Attempt>, span: seq<Attempt>, user: UserId)
    requires LimitsOk(m) && span != [] && Monotone(history + span)
    requires NoSuccess(m, After(m, map[], history), span, user)
    ensures var lasts := span[|span| - 1].now - span[0].now;
            lasts >= 0
            && CountFailures(m, After(m, map[], history), span, user) <= m.maxFailures * (lasts / m.lockMs + 1)
  {
    var f := After(m, map[], history);
    AfterIsOk(m, map[], history);
    var t, end := span[0].now, span[|span| - 1].now;
    forall i, j | 0 <= i < j < |span| ensures span[i].now <= span[j].now {
      assert (history + span)[|history| + i] == span[i] && (history + span)[|history| + j] == span[j];
    }
    RunSpends(m, f, span, user, t, end);
    BudgetIsARoundPerLock(m, f, user, t, end);
  }

  lemma BudgetIsARoundPerLock(m: Limits, f: Failures, user: UserId, t: nat, end: nat)
    requires LimitsOk(m) && TrackerOk(m, f) && t <= end
    ensures Budget(m, f, user, t, end) <= m.maxFailures * ((end - t) / m.lockMs + 1)
  {
    var rounds := (end - t) / m.lockMs;
    assert m.maxFailures * (rounds + 1) == m.maxFailures + m.maxFailures * rounds;
    if user in f && f[user].lockedUntil.Some? && t < f[user].lockedUntil.value <= end {
      RoundsShrink(m, t, f[user].lockedUntil.value, end);
    }
  }

  // ---- What every call answers, told from the answers before it ----

  /** Failed attempts of the user since the last one that passed or locked. */
  function Streak(m: Limits, history: seq<Attempt>, user: UserId): nat
    decreases |history|
  {
    if history == [] then 0
    else
      var front, a := history[..|history| - 1], history[|history| - 1];
      var v := VerdictOf(m, After(m, map[], front), a);
      if a.user != user || v.BadFormat? || v.Locked? then Streak(m, front, user)
      else if v.Invalid? then Streak(m, front, user) + 1
      else 0
  }

  /** When the last lock of the user ends; zero if there was none. */
  function LockEnds(m: Limits, history: seq<Attempt>, user: UserId): nat
    decreases |history|
  {
    if history == [] then 0
    else
      var front, a := history[..|history| - 1], history[|history| - 1];
      if a.user == user && VerdictOf(m, After(m, map[], front), a).NowLocked? then a.now + m.lockMs else LockEnds(m, front, user)
  }

  lemma {:induction false} AfterSnoc(m: Limits, f: Failures, history: seq<Attempt>, a: Attempt)
    ensures After(m, f, history + [a])
            == Gate(m, After(m, f, history), a.user, a.now, a.otp, a.correct).0
    decreases |history|
  {
    if history == [] {
      assert history + [a] == [a] && [a][1..] == [];
    } else {
      assert (history + [a])[1..] == history[1..] + [a];
      AfterSnoc(m, Gate(m, f, history[0].user, history[0].now, history[0].otp, history[0].correct).0, history[1..], a);
    }
  }

  /** The tracker remembers the current round of failures, and the last lock until someone looks at it again. */
  ghost predicate Remembers(m: Limits, history: seq<Attempt>, f: Failures, user: UserId, now: nat) {
    var streak, ends := Streak(m, history, user), LockEnds(m, history, user);
    && streak < m.maxFailures
    && if user !in f then streak == 0 && ends <= now
       else match f[user].lockedUntil
         case Some(until) => streak == 0 && until == ends && until > 0
         case None => f[user].count == streak > 0 && ends <= now
  }

  lemma RemembersLater(m: Limits, history: seq<Attempt>, f: Failures, user: UserId, now: nat, later: nat)
    requires Remembers(m, history, f, user, now) && now <= later
    ensures Remembers(m, history, f, user, later)
  {
  }

  /** What an attempt answers where the tracker remembers, and that it goes on remembering. */
  lemma GateAnswers(m: Limits, history: seq<Attempt>, a: Attempt)
    requires LimitsOk(m) && Remembers(m, history, After(m, map[], history), a.user, a.now)
    ensures Answer(m, history, a, VerdictOf(m, After(m, map[], history), a))
    ensures Remembers(m, history + [a], After(m, map[], history + [a]), a.user, a.now)
  {
    AfterSnoc(m, map[], history, a);
    assert (history + [a])[..|history|] == history;
  }

  lemma OthersAreRemembered(m: Limits, history: seq<Attempt>, a: Attempt, user: UserId)
    requires LimitsOk(m) && user != a.user && Remembers(m, history, After(m, map[], history), user, a.now)
    ensures Remembers(m, history + [a], After(m, map[], history + [a]), user, a.now)
  {
    AfterSnoc(m, map[], history, a);
    assert (history + [a])[..|history|] == history;
    var f := After(m, map[], history);
    var g := Gate(m, f, a.user, a.now, a.otp, a.correct).0;
    assert (user in g <==> user in f) && (user in f ==> g[user] == f[user]);
  }

  /** The whole seconds that cover these milliseconds. */
  predicate Covers(seconds: nat, ms: nat) {
    1000 * seconds >= ms && 1000 * seconds < ms + 1000
  }

  /**
   * The answer: bad format unless six digits; locked, with the seconds left, until the last lock ends; passed exactly on a
   * right code; and on a wrong one the attempts left of this round, or a lock when there are none.
   */
  ghost predicate Answer(m: Limits, history: seq<Attempt>, a: Attempt, v: Verdict) {
    var streak, ends := Streak(m, history, a.user), LockEnds(m, history, a.user);
    if !(|a.otp| == 6 && forall i :: 0 <= i < 6 ==> '0' <= a.otp[i] <= '9') then v == BadFormat
    else if a.now < ends then v.Locked? && Covers(v.seconds, ends - a.now)
    else if a.correct then v == Passed
    else if streak + 1 < m.maxFailures then v == Invalid(m.maxFailures - streak - 1)
    else v.NowLocked? && Covers(v.seconds, m.lockMs)
  }

  lemma FrontIsMonotone(front: seq<Attempt>, a: Attempt)
    requires Monotone(front + [a])
    ensures Monotone(front) && (front != [] ==> front[|front| - 1].now <= a.now)
  {
    forall i, j | 0 <= i < j < |front| ensures front[i].now <= front[j].now {
      assert (front + [a])[i] == front[i] && (front + [a])[j] == front[j];
    }
    if front != [] {
      assert (front + [a])[|front| - 1] == front[|front| - 1] && (front + [a])[|front|] == a;
    }
  }

  lemma OneMoreRemembered(m: Limits, front: seq<Attempt>, a: Attempt, user: UserId, now: nat)
    requires LimitsOk(m) && a.now <= now && Remembers(m, front, After(m, map[], front), user, a.now)
    ensures Remembers(m, front + [a], After(m, map[], front + [a]), user, now)
  {
    if user == a.user {
      GateAnswers(m, front, a);
    } else {
      OthersAreRemembered(m, front, a, user);
    }
    RemembersLater(m, front + [a], After(m, map[], front + [a]), user, a.now, now);
  }

  lemma {:induction false} AlwaysRemembers(m: Limits, history: seq<Attempt>, user: UserId, now: nat)
    requires LimitsOk(m) && Monotone(history) && (history != [] ==> history[|history| - 1].now <= now)
    ensures Remembers(m, history, After(m, map[], history), user, now)
    decreases |history|
  {
    if history != [] {
      var front, a := history[..|history| - 1], history[|history| - 1];
      assert history == front + [a];
      FrontIsMonotone(front, a);
      AlwaysRemembers(m, front, user, a.now);
      OneMoreRemembered(m, front, a, user, now);
    }
  }

  /** After any history of any users, every attempt is answered so. */
  lemma EveryAnswer(m: Limits, history: seq<Attempt>, a: Attempt)
    requires LimitsOk(m) && Monotone(history + [a])
    ensures Answer(m, history, a, VerdictOf(m, After(m, map[], history), a))
  {
    FrontIsMonotone(history, a);
    AlwaysRemembers(m, history, a.user, a.now);
    GateAnswers(m, history, a);
  }
}
