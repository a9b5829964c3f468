/** The login throttle of session_manager.py behind the login gate of main.py:
    an exact bound on the rate of password guesses from one address. */
module LoginThrottles {
  import opened Common

  const EXPIRY: real := 900.0

  /** Failures in the current streak and the time of the last one. */
  datatype Streak = Streak(count: nat, last: real)

  function Pow2(n: nat): nat { if n == 0 then 1 else 2 * Pow2(n - 1) }

  /** The pause a streak demands before the next try. */
  function Delay(count: nat): real {
    if count < 5 then 0.0
    else
      var doubled := 5.0 * Pow2(count - 5) as real;
      if doubled < 300.0 then doubled else 300.0
  }

  /** `math.ceil`. */
  function Ceil(x: real): (n: int)
    ensures n as real - 1.0 < x <= n as real
  {
    if x.Floor as real == x then x.Floor else x.Floor + 1
  }

  // ---- the throttle object --------------------------------------------------

  /** The readings of `clock` one call makes, in order. */
  datatype Readings = Readings(check: real, use: real, recheck: real, reuse: real) {
    predicate Ordered(now: real) { now <= check <= use <= recheck <= reuse }
  }

  class LoginThrottle {
    var failures: map<string, Streak>

    constructor ()
      ensures failures == map[]
    {
      failures := map[];
    }

    /** Forget an address fifteen minutes after its last failure. */
    method Current(address: string, now: real) returns (item: Option<Streak>)
      modifies this
      ensures failures == Pruned(old(failures), address, now)
      ensures item == Lookup(failures, address)
    {
      item := Lookup(failures, address);
      if item.Some? && now - item.value.last >= EXPIRY {
        failures := failures - {address};
        return None;
      }
    }

    method RetryAfter(address: string, check: real, use: real) returns (seconds: nat)
      modifies this
      ensures failures == Pruned(old(failures), address, check)
      ensures seconds == Wait(failures, address, use)
    {
      var item := Current(address, check);
      if item.None? || item.value.count < 5 {
        return 0;
      }
      var remaining := Delay(item.value.count) - (use - item.value.last);
      seconds := Max(0, Ceil(remaining));
    }

    method Failure(address: string, clock: Readings) returns (seconds: nat)
      modifies this
      ensures failures == Pruned(Counted(old(failures), address, clock), address, clock.recheck)
      ensures seconds == Wait(failures, address, clock.reuse)
    {
      var item := Current(address, clock.check);
      var count := if item.None? then 1 else item.value.count + 1;
      failures := failures[address := Streak(count, clock.use)];
      seconds := RetryAfter(address, clock.recheck, clock.reuse);
    }

    /** A success forgives: the next try of the address is free at any time, and no
        other address notices. */
    method Success(address: string)
      modifies this
      ensures Lookup(failures, address) == None && forall now :: Wait(failures, address, now) == 0
      ensures forall other :: other != address ==> Lookup(failures, other) == Lookup(old(failures), other)
      ensures failures == old(failures) - {address}
    {
      failures := failures - {address};
    }
  }

  function Lookup(failures: map<string, Streak>, address: string): Option<Streak> {
    if address in failures then Some(failures[address]) else None
  }

  function Pruned(failures: map<string, Streak>, address: string, now: real): map<string, Streak> {
    if address in failures && now - failures[address].last >= EXPIRY then failures - {address} else failures
  }

  function Wait(failures: map<string, Streak>, address: string, now: real): nat {
    if address !in failures || failures[address].count < 5 then 0
    else Max(0, Ceil(Delay(failures[address].count) - (now - failures[address].last)))
  }

  function Counted(failures: map<string, Streak>, address: string, clock: Readings): map<string, Streak> {
    var kept := Pruned(failures, address, clock.check);
    kept[address := Streak(if address in kept then kept[address].count + 1 else 1, clock.use)]
  }

  // ---- login attempts ---------------------------------------------------------

  /** What the check of a password comes to, once the gate let it through. */
  datatype Outcome = Accepted | Refused | Unavailable

  /** One request to log in: the readings of the gate, then those of a failure. */
  datatype Attempt = Attempt(address: string, check: real, use: real, outcome: Outcome, clock: Readings) {
    predicate Ordered(now: real) { now <= check <= use && clock.Ordered(use) }
  }

  datatype Answer = TooManyAttempts(retryAfter: nat) | BadPassword(retryAfter: nat) | LoggedIn | ServerError

  /** `login`: one attempt at a time, gate first, then the password. */
  method Login(throttle: LoginThrottle, attempt: Attempt) returns (answer: Answer)
    modifies throttle
    ensures (throttle.failures, answer) == LoginStep(old(throttle.failures), attempt)
  {
    var retryAfter := throttle.RetryAfter(attempt.address, attempt.check, attempt.use);
    if retryAfter != 0 {
      return TooManyAttempts(retryAfter);
    }
    match attempt.outcome {
      case Unavailable =>
        return ServerError;
      case Refused =>
        retryAfter := throttle.Failure(attempt.address, attempt.clock);
        return BadPassword(retryAfter);
      case Accepted =>
        throttle.Success(attempt.address);
        return LoggedIn;
    }
  }

  function LoginStep(failures: map<string, Streak>, attempt: Attempt): (map<string, Streak>, Answer) {
    var kept := Pruned(failures, attempt.address, attempt.check);
    var retryAfter := Wait(kept, attempt.address, attempt.use);
    if retryAfter != 0 then (kept, TooManyAttempts(retryAfter))
    else match attempt.outcome
      case Unavailable => (kept, ServerError)
      case Accepted => (kept - {attempt.address}, LoggedIn)
      case Refused =>
        var counted := Pruned(Counted(kept, attempt.address, attempt.clock), attempt.address, attempt.clock.recheck);
        (counted, BadPassword(Wait(counted, attempt.address, attempt.clock.reuse)))
  }

  /** What one request does to whom: the gate alone decides whether the password is
      looked at, only a refused password lengthens the streak, only an accepted one
      forgives, and no other address notices. */
  lemma OneRequest(failures: map<string, Streak>, attempt: Attempt)
    requires attempt.Ordered(attempt.check)
    requires attempt.address in failures ==> failures[attempt.address].last <= attempt.check
    ensures var (next, answer) := LoginStep(failures, attempt);
            var known := attempt.address in failures && attempt.check - failures[attempt.address].last < 900.0;
            var count := if known then failures[attempt.address].count else 0;
            var waits := known && count >= 5 && attempt.use - failures[attempt.address].last < Delay(count);
            && (answer.TooManyAttempts? <==> waits)
            && (answer.BadPassword? <==> !waits && attempt.outcome.Refused?)
            && (answer.LoggedIn? <==> !waits && attempt.outcome.Accepted?)
            && (answer.LoggedIn? ==> attempt.address !in next)
            && (answer.TooManyAttempts? || answer.ServerError? ==>
                  if known then attempt.address in next && next[attempt.address] == failures[attempt.address]
                  else attempt.address !in next)
            && (forall other :: other != attempt.address ==>
                  (other in next <==> other in failures) && (other in next ==> next[other] == failures[other]))
    ensures var (next, answer) := LoginStep(failures, attempt);
            answer.BadPassword? && attempt.clock.recheck - attempt.check < 900.0 ==>
              && attempt.address in next && next[attempt.address].last == attempt.clock.use
              && next[attempt.address].count ==
                 1 + if attempt.address in failures && attempt.clock.check - failures[attempt.address].last < 900.0
                     then failures[attempt.address].count else 0
  {
  }

  /** Attempts follow each other on a clock that never goes back. */
  predicate InOrder(attempts: seq<Attempt>, now: real)
    decreases |attempts|
  {
    attempts == [] || (attempts[0].Ordered(now) && InOrder(attempts[1..], attempts[0].clock.reuse))
  }

  /** The failures of `address` that the gate let through, with the streak each
      one left. A success of the address ends the list. */
  function Admitted(failures: map<string, Streak>, attempts: seq<Attempt>, address: string): seq<Streak>
    decreases |attempts|
  {
    if attempts == [] then []
    else
      var attempt := attempts[0];
      var (next, answer) := LoginStep(failures, attempt);
      if attempt.address != address then Admitted(next, attempts[1..], address)
      else match answer
        case LoggedIn => []
        case BadPassword(_) =>
          var kept := Pruned(failures, address, attempt.check);
          [Counted(kept, address, attempt.clock)[address]] + Admitted(next, attempts[1..], address)
        case _ => Admitted(next, attempts[1..], address)
  }

  // ---- how two failures in a row are spaced -------------------------------------

  /** A failure prolongs the streak after its delay, or starts a new one after
      the fifteen minutes. */
  predicate Follows(before: Streak, after: Streak) {
    || (after.count == before.count + 1 && after.last >= before.last + Delay(before.count))
    || (after.count == 1 && after.last >= before.last + EXPIRY)
  }

  ghost predicate Chain(list: seq<Streak>) {
    && (forall i :: 0 <= i < |list| ==> list[i].count >= 1)
    && forall i :: 0 <= i < |list| - 1 ==> Follows(list[i], list[i + 1])
  }

  /** What the table still knows of the last admitted failure. */
  predicate Remembers(failures: map<string, Streak>, address: string, last: Option<Streak>, now: real) {
    match last
    case None => address !in failures
    case Some(streak) =>
      streak.last <= now && if address in failures then failures[address] == streak else now >= streak.last + EXPIRY
  }

  lemma OneAttempt(failures: map<string, Streak>, attempt: Attempt, address: string, last: Option<Streak>, now: real)
    requires Remembers(failures, address, last, now) && attempt.Ordered(now)
    requires last.Some? ==> last.value.count >= 1
    ensures var (next, answer) := LoginStep(failures, attempt);
            var kept := Pruned(failures, address, attempt.check);
            var later := attempt.clock.reuse;
            if attempt.address == address && answer.BadPassword? then
              var streak := Counted(kept, address, attempt.clock)[address];
              && Remembers(next, address, Some(streak), later) && streak.count >= 1
              && (last.Some? ==> Follows(last.value, streak))
            else (attempt.address == address && answer.LoggedIn?) || Remembers(next, address, last, later)
  {
  }

  /** The failures a run admits form a chain. */
  lemma {:induction false} RunIsChain(failures: map<string, Streak>, attempts: seq<Attempt>, address: string,
      last: Option<Streak>, now: real)
    requires Remembers(failures, address, last, now) && InOrder(attempts, now)
    requires last.Some? ==> last.value.count >= 1
    ensures var list := Admitted(failures, attempts, address);
            Chain(list) && (last.Some? && list != [] ==> Follows(last.value, list[0]))
    decreases |attempts|
  {
    if attempts != [] {
      var attempt := attempts[0];
      var (next, answer) := LoginStep(failures, attempt);
      OneAttempt(failures, attempt, address, last, now);
      var kept := Pruned(failures, address, attempt.check);
      if attempt.address == address && answer.BadPassword? {
        var streak := Counted(kept, address, attempt.clock)[address];
        RunIsChain(next, attempts[1..], address, Some(streak), attempt.clock.reuse);
        ChainGrows(streak, Admitted(next, attempts[1..], address));
      } else if !(attempt.address == address && answer.LoggedIn?) {
        RunIsChain(next, attempts[1..], address, last, attempt.clock.reuse);
      }
    }
  }

  lemma ChainGrows(first: Streak, rest: seq<Streak>)
    requires first.count >= 1 && Chain(rest) && (rest != [] ==> Follows(first, rest[0]))
    ensures Chain([first] + rest)
  {
    var list := [first] + rest;
    forall i | 0 <= i < |list| - 1 ensures Follows(list[i], list[i + 1]) {
      if i > 0 { assert Follows(rest[i - 1], rest[i]); }
    }
  }

  // ---- the length of a streak -----------------------------------------------------

  /** The least time from the first to the `count`th failure of one streak. */
  function StreakTime(count: nat): real {
    if count <= 1 then 0.0 else StreakTime(count - 1) + Delay(count - 1)
  }

  lemma {:induction false} Pow2Grows(m: nat, n: nat)
    requires m <= n
    ensures Pow2(m) <= Pow2(n)
  {
    if m < n { Pow2Grows(m, n - 1); }
  }

  lemma LongDelays(count: nat)
    requires count >= 11
    ensures Delay(count) == 300.0
  {
    Pow2Grows(6, count - 5);
    assert Pow2(6) == 64;
  }

  lemma ShortDelays()
    ensures Delay(5) == 5.0 && Delay(6) == 10.0 && Delay(7) == 20.0 && Delay(8) == 40.0 && Delay(9) == 80.0 &&
            Delay(10) == 160.0
  {
    assert Pow2(1) == 2 && Pow2(2) == 4 && Pow2(3) == 8 && Pow2(4) == 16 && Pow2(5) == 32;
  }

  lemma ShortStreaks()
    ensures StreakTime(5) == 0.0 && StreakTime(6) == 5.0 && StreakTime(7) == 15.0 && StreakTime(8) == 35.0
    ensures StreakTime(9) == 75.0 && StreakTime(10) == 155.0 && StreakTime(11) == 315.0
  {
    ShortDelays();
    assert StreakTime(2) == 0.0 && StreakTime(3) == 0.0 && StreakTime(4) == 0.0;
  }

  /** Five tries are free, then the pauses double up to five minutes. */
  lemma {:induction false} StreakTimeClosed(count: nat)
    requires count >= 5
    ensures StreakTime(count) == 5.0 * (Pow2(Min(count, 11) - 5) - 1) as real + 300.0 * Max(0, count - 11) as real
  {
    if count <= 11 {
      ShortStreaks();
      assert Pow2(1) == 2 && Pow2(2) == 4 && Pow2(3) == 8 && Pow2(4) == 16 && Pow2(5) == 32 && Pow2(6) == 64;
    } else {
      StreakTimeClosed(count - 1);
      LongDelays(count - 1);
    }
  }

  /** In a chain without a reset the counts say how much time has passed. */
  lemma {:induction false} StreakTakesTime(list: seq<Streak>, i: nat, j: nat)
    requires Chain(list) && i <= j < |list|
    requires forall k :: i < k <= j ==> list[k].count > 1
    ensures list[j].count == list[i].count + (j - i)
    ensures list[j].last - list[i].last >= StreakTime(list[j].count) - StreakTime(list[i].count)
    decreases j - i
  {
    if i < j {
      StreakTakesTime(list, i, j - 1);
      assert Follows(list[j - 1], list[j]);
    }
  }

  // ---- the rate bound ---------------------------------------------------------------

  /** How far a streak of this length is ahead of one failure every 105.5 s. */
  function Lead(count: nat): real {
    1055.0 * count as real - 10.0 * StreakTime(count)
  }

  lemma {:induction false} LeadFalls(m: nat, n: nat)
    requires 10 <= m <= n
    ensures Lead(n) <= Lead(m)
  {
    if m < n {
      LeadFalls(m, n - 1);
      ShortDelays();
      if n - 1 >= 11 { LongDelays(n - 1); }
    }
  }

  /** Ten failures are the best a streak can do. */
  lemma LeadIsBounded(m: nat, n: nat)
    requires 1 <= m <= n
    ensures Lead(n) - Lead(m) <= 7945.0 && Lead(n) <= 9000.0
  {
    ShortStreaks();
    assert StreakTime(2) == 0.0 && StreakTime(3) == 0.0 && StreakTime(4) == 0.0;
    assert Lead(1) == 1055.0 && Lead(10) == 9000.0;
    if n >= 10 { LeadFalls(10, n); }
    if m >= 10 { LeadFalls(m, n); }
  }

  /** What the failures from `i` to `j` have used up of the budget. */
  ghost predicate WithinBudget(list: seq<Streak>, i: nat, j: nat)
    requires i <= j < |list|
  {
    var used := 1055.0 * (j - i + 1) as real - 10.0 * (list[j].last - list[i].last);
    used <= Lead(list[j].count) || (list[i].count <= list[j].count &&
        used <= Lead(list[j].count) - Lead(list[i].count) + 1055.0)
  }

  lemma BudgetStep(list: seq<Streak>, i: nat, j: nat)
    requires Chain(list) && i < j < |list| && WithinBudget(list, i, j - 1)
    ensures WithinBudget(list, i, j)
  {
    var before, after := list[j - 1], list[j];
    assert Follows(before, after);
    var used := 1055.0 * (j - i) as real - 10.0 * (before.last - list[i].last);
    assert 1055.0 * (j - i + 1) as real == 1055.0 * (j - i) as real + 1055.0;
    if list[i].count <= before.count { LeadIsBounded(list[i].count, before.count); }
    LeadIsBounded(before.count, before.count);
    if after.count == before.count + 1 && after.last >= before.last + Delay(before.count) {
      assert Lead(after.count) == Lead(before.count) + 1055.0 - 10.0 * Delay(before.count);
    } else {
      assert Lead(1) == 1055.0;
      assert used <= 9000.0;
    }
  }

  lemma {:induction false} ChainWithinBudget(list: seq<Streak>, i: nat, j: nat)
    requires Chain(list) && i <= j < |list|
    ensures WithinBudget(list, i, j)
    decreases j - i
  {
    if i < j {
      ChainWithinBudget(list, i, j - 1);
      BudgetStep(list, i, j);
    }
  }

  /** The rate bound: in every run of attempts from any addresses, any window of
      N failures that one address got through the gate, with no success of that
      address before its end, spans a time T with 211 N <= 2 T + 1800. */
  lemma GuessRateIsBounded(attempts: seq<Attempt>, address: string, now: real, i: nat, j: nat)
    requires InOrder(attempts, now)
    requires i <= j < |Admitted(map[], attempts, address)|
    ensures var list := Admitted(map[], attempts, address);
            211.0 * (j - i + 1) as real <= 2.0 * (list[j].last - list[i].last) + 1800.0
  {
    var list := Admitted(map[], attempts, address);
    RunIsChain(map[], attempts, address, None, now);
    ChainWithinBudget(list, i, j);
    if list[i].count <= list[j].count { LeadIsBounded(list[i].count, list[j].count); }
    LeadIsBounded(list[j].count, list[j].count);
  }

  /** An unbroken streak of n >= 5 failures takes at least its pauses. */
  lemma StreakIsSlowed(attempts: seq<Attempt>, address: string, now: real, i: nat, j: nat)
    requires InOrder(attempts, now)
    requires i <= j < |Admitted(map[], attempts, address)|
    requires Admitted(map[], attempts, address)[i].count == 1
    requires forall k :: i < k <= j ==> Admitted(map[], attempts, address)[k].count > 1
    ensures var list := Admitted(map[], attempts, address); var n := j - i + 1;
            n >= 5 ==>
              list[j].last - list[i].last >= 5.0 * (Pow2(Min(n, 11) - 5) - 1) as real + 300.0 * Max(0, n - 11) as real
  {
    var list := Admitted(map[], attempts, address);
    RunIsChain(map[], attempts, address, None, now);
    StreakTakesTime(list, i, j);
    if j - i + 1 >= 5 { StreakTimeClosed(j - i + 1); }
  }

  // ---- the fastest guesser -------------------------------------------------------------

  lemma {:induction false} DelayGrows(m: nat, n: nat)
    requires m <= n
    ensures Delay(m) <= Delay(n) <= 300.0
  {
    if 5 <= m { Pow2Grows(m - 5, n - 5); }
  }

  /** A plan lists the lengths of streaks with fifteen minutes of rest after each. */
  predicate Planned(plan: seq<nat>, n: nat) {
    plan != [] && (forall i :: 0 <= i < |plan| ==> plan[i] >= 1) && Total(plan) == n
  }

  function Total(plan: seq<nat>): nat { if plan == [] then 0 else plan[0] + Total(plan[1..]) }

  /** The time its streaks and rests take, counting a rest for each streak. */
  function Span(plan: seq<nat>): real {
    if plan == [] then 0.0 else StreakTime(plan[0]) + EXPIRY + Span(plan[1..])
  }

  lemma {:induction false} PlanSnoc(plan: seq<nat>, last: nat)
    ensures Total(plan + [last]) == Total(plan) + last
    ensures Span(plan + [last]) == Span(plan) + StreakTime(last) + EXPIRY
  {
    if plan == [] {
      assert [last][1..] == [] && plan + [last] == [last];
    } else {
      assert (plan + [last])[0] == plan[0] && (plan + [last])[1..] == plan[1..] + [last];
      PlanSnoc(plan[1..], last);
    }
  }

  /** The least time from the first to the last of n failures: the best choice of the
      last streak after the best plan for the failures before it. */
  function LeastTime(n: nat): real
    requires n > 0
    decreases n, n + 2
  {
    Cheapest(n, n)
  }

  function Cheapest(n: nat, m: nat): real
    requires 1 <= m <= n
    decreases n, m + 1
  {
    if m > 1 && Cheapest(n, m - 1) <= Ending(n, m) then Cheapest(n, m - 1) else Ending(n, m)
  }

  /** The least time when the last streak is this long. */
  function Ending(n: nat, m: nat): real
    requires 1 <= m <= n
    decreases n, 0
  {
    StreakTime(m) + if m == n then 0.0 else LeastTime(n - m) + EXPIRY
  }

  lemma {:induction false} CheapestIsLeast(n: nat, m: nat, k: nat)
    requires 1 <= k <= m <= n
    ensures Cheapest(n, m) <= Ending(n, k)
    decreases m
  {
    if k < m { CheapestIsLeast(n, m - 1, k); }
  }

  lemma {:induction false} CheapestIsEnding(n: nat, m: nat) returns (k: nat)
    requires 1 <= m <= n
    ensures 1 <= k <= m && Cheapest(n, m) == Ending(n, k)
    decreases m
  {
    if m > 1 && Cheapest(n, m - 1) <= Ending(n, m) { k := CheapestIsEnding(n, m - 1); } else { k := m; }
  }

  /** No plan is faster. */
  lemma {:induction false} LeastOfPlans(plan: seq<nat>, n: nat)
    requires Planned(plan, n)
    ensures n > 0 && LeastTime(n) <= Span(plan) - EXPIRY
    decreases |plan|
  {
    var front, last := plan[..|plan| - 1], plan[|plan| - 1];
    assert plan == front + [last];
    PlanSnoc(front, last);
    CheapestIsLeast(n, n, last);
    if front == [] {
      assert Total(front) == 0 && Span(front) == 0.0;
    } else {
      LeastOfPlans(front, n - last);
    }
  }

  /** Some plan is as fast. */
  lemma {:induction false} BestPlan(n: nat) returns (plan: seq<nat>)
    requires n > 0
    ensures Planned(plan, n) && Span(plan) - EXPIRY == LeastTime(n)
    decreases n
  {
    var last := CheapestIsEnding(n, n);
    if last == n {
      plan := [n];
      assert plan[1..] == [];
    } else {
      var front := BestPlan(n - last);
      PlanSnoc(front, last);
      plan := front + [last];
    }
  }

  lemma PlanGoesOn(before: seq<nat>, n: nat, was: Streak, now: Streak) returns (plan: seq<nat>)
    requires Planned(before, n) && before[|before| - 1] <= was.count && Follows(was, now)
    ensures Planned(plan, n + 1) && plan[|plan| - 1] <= now.count
    ensures Span(plan) - Span(before) <= now.last - was.last
  {
    var front, last := before[..|before| - 1], before[|before| - 1];
    assert before == front + [last];
    DelayGrows(last, was.count);
    PlanSnoc(front, last);
    PlanSnoc(front, last + 1);
    PlanSnoc(before, 1);
    assert StreakTime(last + 1) == StreakTime(last) + Delay(last) && StreakTime(1) == 0.0;
    hide Delay, StreakTime, Total, Span;
    plan := if now.count == was.count + 1 && now.last >= was.last + Delay(was.count) then front + [last + 1]
    else before + [1];
  }

  /** A window of failures is at least as slow as the plan of its streaks, of which the
      last is no longer than the count it has reached. */
  lemma {:induction false} ChainFollowsAPlan(list: seq<Streak>, i: nat, j: nat) returns (plan: seq<nat>)
    requires Chain(list) && i <= j < |list|
    ensures Planned(plan, j - i + 1) && plan[|plan| - 1] <= list[j].count
    ensures Span(plan) - EXPIRY <= list[j].last - list[i].last
    decreases j - i
  {
    if i == j {
      plan := [1];
      assert plan[1..] == [];
    } else {
      var before := ChainFollowsAPlan(list, i, j - 1);
      assert Follows(list[j - 1], list[j]);
      plan := PlanGoesOn(before, j - i, list[j - 1], list[j]);
    }
  }

  /** In every run any window of N failures of one address takes at least the least
      time for N, whatever the attempts of other addresses. */
  lemma GuessesTakeLeastTime(attempts: seq<Attempt>, address: string, now: real, i: nat, j: nat)
    requires InOrder(attempts, now)
    requires i <= j < |Admitted(map[], attempts, address)|
    ensures var list := Admitted(map[], attempts, address);
            LeastTime(j - i + 1) <= list[j].last - list[i].last
  {
    RunIsChain(map[], attempts, address, None, now);
    var plan := ChainFollowsAPlan(Admitted(map[], attempts, address), i, j);
    LeastOfPlans(plan, j - i + 1);
  }

  // ---- and it is reached ----------------------------------------------------------------

  function Try(streak: Streak, address: string): Attempt {
    Attempt(address, streak.last, streak.last, Refused, Readings(streak.last, streak.last, streak.last, streak.last))
  }

  /** A try for each streak, at its time. */
  function Tries(list: seq<Streak>, address: string): seq<Attempt> {
    if list == [] then [] else [Try(list[0], address)] + Tries(list[1..], address)
  }

  /** The next failure comes as soon as it may, or after the rest. */
  predicate Next(before: Streak, after: Streak) {
    || after == Streak(before.count + 1, before.last + Delay(before.count))
    || after == Streak(1, before.last + EXPIRY)
  }

  predicate Paced(before: Streak, list: seq<Streak>)
    decreases |list|
  {
    list == [] || (Next(before, list[0]) && Paced(list[0], list[1..]))
  }

  lemma TryIsAdmitted(failures: map<string, Streak>, before: Streak, after: Streak, address: string)
    requires failures == map[address := before] && Next(before, after) && before.count >= 1
    ensures var (next, answer) := LoginStep(failures, Try(after, address));
            && answer.BadPassword? && next == map[address := after] && Try(after, address).Ordered(before.last)
            && Counted(Pruned(failures, address, after.last), address, Try(after, address).clock)[address] == after
  {
    DelayGrows(before.count, before.count);
    GatePasses(failures, before, after, address);
    hide Wait, Next, Delay;
    var t := after.last;
    var counted := Counted(Pruned(failures, address, t), address, Try(after, address).clock);
    assert counted == map[address := after];
    assert Pruned(counted, address, t) == counted;
  }

  lemma GatePasses(failures: map<string, Streak>, before: Streak, after: Streak, address: string)
    requires failures == map[address := before] && Next(before, after) && 0.0 <= Delay(before.count) <= 300.0
    ensures var kept := Pruned(failures, address, after.last);
            && Wait(kept, address, after.last) == 0 && after.last >= before.last
            && kept == (if after.last - before.last >= EXPIRY then map[] else failures)
    ensures after.count == if after.last - before.last >= EXPIRY then 1 else before.count + 1
  {
  }

  lemma {:induction false} TriesAreAdmitted(failures: map<string, Streak>, before: Streak, list: seq<Streak>,
      address: string)
    requires failures == map[address := before] && Paced(before, list) && before.count >= 1
    ensures Admitted(failures, Tries(list, address), address) == list && InOrder(Tries(list, address), before.last)
    decreases |list|
  {
    hide LoginStep, Pruned, Counted, Next;
    if list != [] {
      NextCounts(before, list[0]);
      TryIsAdmitted(failures, before, list[0], address);
      TriesAreAdmitted(map[address := list[0]], list[0], list[1..], address);
      assert Tries(list, address)[1..] == Tries(list[1..], address);
    }
  }

  lemma NextCounts(before: Streak, after: Streak)
    requires Next(before, after)
    ensures after.count >= 1
  {
  }

  /** From a first failure of an address never seen. */
  lemma RunFrom(first: Streak, list: seq<Streak>, address: string)
    requires first == Streak(1, 0.0) && Paced(first, list)
    ensures var attempts := Tries([first] + list, address);
            Admitted(map[], attempts, address) == [first] + list && InOrder(attempts, 0.0)
  {
    var attempts := Tries([first] + list, address);
    assert ([first] + list)[1..] == list;
    var (next, answer) := LoginStep(map[], attempts[0]);
    assert next == map[address := first] && answer.BadPassword?;
    hide LoginStep, Next, Paced;
    TriesAreAdmitted(next, first, list, address);
    assert attempts[1..] == Tries(list, address);
  }

  /** What follows a failure: the rest of its streak, then the other streaks. */
  function Following(before: Streak, left: nat, plan: seq<nat>): seq<Streak>
    decreases |plan|, left
  {
    if left > 0 then
      var next := Streak(before.count + 1, before.last + Delay(before.count));
      [next] + Following(next, left - 1, plan)
    else if plan == [] then []
    else
      var next := Streak(1, before.last + EXPIRY);
      [next] + Following(next, if plan[0] == 0 then 0 else plan[0] - 1, plan[1..])
  }

  function LastOf(before: Streak, list: seq<Streak>): Streak { if list == [] then before else list[|list| - 1] }

  lemma TookNext(before: Streak)
    requires before.count >= 1
    ensures var next := Streak(before.count + 1, before.last + Delay(before.count));
            Next(before, next) && next.last - StreakTime(next.count) == before.last - StreakTime(before.count)
    ensures var next := Streak(1, before.last + EXPIRY); Next(before, next) && StreakTime(1) == 0.0
  {
  }

  lemma {:induction false} FollowingIsPaced(before: Streak, left: nat, plan: seq<nat>)
    requires before.count >= 1 && forall i :: 0 <= i < |plan| ==> plan[i] >= 1
    ensures var list := Following(before, left, plan);
            && Paced(before, list) && |list| == left + Total(plan)
            && LastOf(before, list).last ==
               before.last + StreakTime(before.count + left) - StreakTime(before.count) + Span(plan)
    decreases |plan|, left
  {
    hide Delay, StreakTime, Next, LastOf;
    TookNext(before);
    var list := Following(before, left, plan);
    if list == [] {
      NothingMore(before);
    } else {
      LastOfMore(before, list);
      var next := list[0];
      if left > 0 {
        FollowingIsPaced(next, left - 1, plan);
        assert list[1..] == Following(next, left - 1, plan);
      } else {
        FollowingIsPaced(next, plan[0] - 1, plan[1..]);
        assert list[1..] == Following(next, plan[0] - 1, plan[1..]);
      }
    }
  }

  lemma NothingMore(before: Streak)
    ensures LastOf(before, []) == before && Span([]) == 0.0
  {
  }

  lemma LastOfMore(before: Streak, list: seq<Streak>)
    requires list != []
    ensures LastOf(before, list) == LastOf(list[0], list[1..])
  {
  }

  /** The least time is the least: some run has so many failures in just that time. */
  lemma LeastTimeIsReached(n: nat, address: string) returns (attempts: seq<Attempt>)
    requires n > 0
    ensures InOrder(attempts, 0.0)
    ensures var list := Admitted(map[], attempts, address);
            |list| == n && list[n - 1].last - list[0].last == LeastTime(n)
  {
    var plan := BestPlan(n);
    attempts := PlanRuns(plan, n, address);
  }

  lemma PlanRuns(plan: seq<nat>, n: nat, address: string) returns (attempts: seq<Attempt>)
    requires Planned(plan, n)
    ensures n > 0 && InOrder(attempts, 0.0)
    ensures var list := Admitted(map[], attempts, address);
            |list| == n && list[n - 1].last - list[0].last == Span(plan) - EXPIRY
  {
    hide *;
    PlanHead(plan, n);
    var first := Streak(1, 0.0);
    FollowingIsPaced(first, plan[0] - 1, plan[1..]);
    var list := Following(first, plan[0] - 1, plan[1..]);
    RunFrom(first, list, address);
    LastOfAll(first, list);
    attempts := Tries([first] + list, address);
  }

  lemma PlanHead(plan: seq<nat>, n: nat)
    requires Planned(plan, n)
    ensures plan != [] && plan[0] >= 1 && (forall i :: 0 <= i < |plan[1..]| ==> plan[1..][i] >= 1)
    ensures n == plan[0] + Total(plan[1..]) && StreakTime(1) == 0.0
    ensures Span(plan) == StreakTime(plan[0]) + EXPIRY + Span(plan[1..])
  {
    hide StreakTime;
    assert StreakTime(1) == 0.0 by { ShortStreaks(); TookNext(Streak(1, 0.0)); }
  }

  lemma LastOfAll(first: Streak, list: seq<Streak>)
    ensures ([first] + list)[|list|] == LastOf(first, list)
  {
  }

  // ---- the linear bound is reached -------------------------------------------------------

  /** Ten failures to a streak. */
  lemma {:induction false} Tens(rounds: nat)
    ensures var plan := seq(rounds, i => 10); Total(plan) == 10 * rounds && Span(plan) == 1055.0 * rounds as real
  {
    var plan := seq(rounds, i => 10);
    if rounds > 0 {
      Tens(rounds - 1);
      ShortStreaks();
      assert plan[1..] == seq(rounds - 1, i => 10);
    }
  }

  /** The linear bound cannot be lowered: for every number of rounds of ten there is a
      run whose failures meet it with equality. */
  lemma BoundIsReached(rounds: nat, address: string) returns (attempts: seq<Attempt>)
    requires rounds > 0
    ensures InOrder(attempts, 0.0)
    ensures var list := Admitted(map[], attempts, address);
            && |list| == 10 * rounds
            && 211.0 * |list| as real == 2.0 * (list[|list| - 1].last - list[0].last) + 1800.0
  {
    Tens(rounds);
    attempts := PlanRuns(seq(rounds, i => 10), 10 * rounds, address);
  }

  /** Where the linear bound stands against the least time: below it for every number
      of failures, and equal to it at every ten. */
  lemma LinearBoundAgainstLeast(n: nat, rounds: nat)
    requires n > 0 && rounds > 0
    ensures 211.0 * n as real <= 2.0 * LeastTime(n) + 1800.0
    ensures 211.0 * (10 * rounds) as real == 2.0 * LeastTime(10 * rounds) + 1800.0
  {
    hide *;
    var fastest := LeastTimeIsReached(n, "");
    GuessRateIsBounded(fastest, "", 0.0, 0, n - 1);
    var tens := LeastTimeIsReached(10 * rounds, "");
    GuessRateIsBounded(tens, "", 0.0, 0, 10 * rounds - 1);
    var steady := BoundIsReached(rounds, "");
    GuessesTakeLeastTime(steady, "", 0.0, 0, 10 * rounds - 1);
  }
}
