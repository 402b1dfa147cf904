/** Bounded retries (src/retry.rs:26-108, 192-255): how long a call is tried again, how it waits,
    and what progress buys. Times are whole units of a clock. */
module Retry {
  import opened Arithmetic
  import opened Options

  /** Tries in all, the first wait, the longest, and how long attempts may start. */
  datatype Policy = Policy(attempts: nat, base: nat, maxDelay: nat, deadline: nat)

  datatype Class = Transient | Permanent

  // ---------------------------------------------------------------- the wait

  /** The doubled step after attempt `n`, capped. */
  function Step(p: Policy, n: nat): nat {
    Lesser(p.base * Pow2(Lesser(if n == 0 then 0 else n - 1, 16)), p.maxDelay)
  }

  /** The wait: the step, drawn from its upper half. */
  function Delay(p: Policy, n: nat, draw: nat): (d: nat)
    ensures Step(p, n) / 2 <= d <= Step(p, n)
    ensures Step(p, n) >= 2 ==> d < Step(p, n)
  {
    var half := Step(p, n) / 2;
    half + if half == 0 then 0 else draw % half
  }

  /** Steps start at the base, double until the sixteenth doubling, and stop at the cap. */
  lemma StepsDouble(p: Policy, n: nat)
    requires n >= 1
    ensures Step(p, 1) == Lesser(p.base, p.maxDelay)
    ensures Step(p, n + 1) == if n <= 16 then Lesser(2 * Step(p, n), p.maxDelay) else Step(p, n)
    ensures Step(p, n) <= Step(p, n + 1) <= p.maxDelay
  {
    assert Pow2(0) == 1;
    if n <= 16 {
      assert Pow2(n) == 2 * Pow2(n - 1);
      assert p.base * Pow2(n) == 2 * (p.base * Pow2(n - 1));
    }
  }

  // ---------------------------------------------------------------- what a failure leads to

  /** Attempts since the start, in all, and when the start was. */
  datatype Count = Count(attempt: nat, total: nat, start: nat)

  datatype Verdict = Again(wait: nat) | GiveUp

  /** One more attempt. */
  function Begun(c: Count): Count {
    c.(attempt := c.attempt + 1, total := c.total + 1)
  }

  /** A transient failure after progress starts the count and the clock over. */
  function Restarted(c: Count, kind: Class, moved: bool, now: nat): Count {
    if kind.Transient? && moved then c.(attempt := 1, start := now) else c
  }

  /** Whether to go on after a failure at `now`. */
  function Judged(p: Policy, c: Count, kind: Class, now: nat, draw: nat): Verdict
    requires c.start <= now
  {
    var wait := Delay(p, c.attempt, draw);
    if kind.Permanent? || c.attempt >= p.attempts || now - c.start + wait >= p.deadline then GiveUp else Again(wait)
  }

  function Tries(p: Policy): nat {
    if p.attempts < 1 then 1 else p.attempts
  }

  /** What the loop keeps between attempts: fewer than the tries since the start, and in all no
      more than that many for each restart. */
  ghost predicate Counted(p: Policy, c: Count, restarts: nat) {
    c.attempt < Tries(p) && c.total <= c.attempt + restarts * (Tries(p) - 1)
  }

  lemma JudgedKeeps(p: Policy, c: Count, restarts: nat, kind: Class, moved: bool, now: nat, draw: nat)
    requires Counted(p, c, restarts) && c.start <= now
    ensures
      var b := Restarted(Begun(c), kind, moved, now);
      var n := restarts + if kind.Transient? && moved then 1 else 0;
      && b.start <= now
      && b.total <= Tries(p) + n * (Tries(p) - 1)
      && (Judged(p, b, kind, now, draw).Again? ==> Counted(p, b, n))
  {
    var t := Tries(p) - 1;
    assert (restarts + 1) * t == restarts * t + t;
  }

  // ---------------------------------------------------------------- the loop

  /** How an attempt went, where progress stood when it began and when it failed, how long it
      took, and the draw for the wait after it. */
  datatype Try = Try(failed: Option<Class>, before: nat, after: nat, took: nat, draw: nat)

  datatype Outcome = Succeeded | Failed(kind: Class)

  function Moved(watch: bool, t: Try): bool {
    watch && t.after > t.before
  }

  /** Transient failures of attempts that got further than they began, where that is watched. */
  ghost function Restarts(watch: bool, tries: seq<Try>): nat {
    if tries == [] then 0 else
    var t := tries[|tries| - 1];
    Restarts(watch, tries[..|tries| - 1]) + if t.failed == Some(Transient) && watch && t.after > t.before then 1 else 0
  }

  lemma RestartsMore(watch: bool, tries: seq<Try>, k: nat)
    requires k < |tries|
    ensures Restarts(watch, tries[..k + 1]) ==
      Restarts(watch, tries[..k]) +
        if tries[k].failed == Some(Transient) && watch && tries[k].after > tries[k].before then 1 else 0
  {
    assert tries[..k + 1][..k] == tries[..k];
  }

  datatype Running = Running(count: Count, now: nat)

  /** One attempt from there; `None` when the loop ends with it. */
  function Next(p: Policy, watch: bool, was: Running, t: Try): (r: Option<Running>)
    requires was.count.start <= was.now
    ensures r.Some? ==> r.value.count.start <= r.value.now
  {
    if t.failed.None? then None else
    var now := was.now + t.took;
    var c := Restarted(Begun(was.count), t.failed.value, Moved(watch, t), now);
    var v := Judged(p, c, t.failed.value, now, t.draw);
    if v.GiveUp? then None else Some(Running(c, now + v.wait))
  }

  /** Where the loop stands before the attempt after the first `k`; `None` once it has ended. */
  ghost function StateAt(p: Policy, watch: bool, tries: seq<Try>, k: nat): (r: Option<Running>)
    requires k <= |tries|
    ensures r.Some? ==> r.value.count.start <= r.value.now
  {
    if k == 0 then Some(Running(Count(0, 0, 0), 0)) else
    var was := StateAt(p, watch, tries, k - 1);
    if was.None? then None else Next(p, watch, was.value, tries[k - 1])
  }

  lemma StateMore(p: Policy, watch: bool, tries: seq<Try>, k: nat)
    requires k < |tries| && StateAt(p, watch, tries, k).Some?
    ensures StateAt(p, watch, tries, k + 1) == Next(p, watch, StateAt(p, watch, tries, k).value, tries[k])
  {
  }

  /** Only a transient failure is tried again. */
  lemma {:induction false} OnlyTransientGoesOn(p: Policy, watch: bool, tries: seq<Try>, k: nat)
    requires k <= |tries| && StateAt(p, watch, tries, k).Some?
    ensures forall i :: 0 <= i < k ==> tries[i].failed == Some(Transient)
  {
    if k > 0 {
      OnlyTransientGoesOn(p, watch, tries, k - 1);
      StateMore(p, watch, tries, k - 1);
    }
  }

  lemma {:induction false} CountedAt(p: Policy, watch: bool, tries: seq<Try>, k: nat)
    requires k <= |tries| && StateAt(p, watch, tries, k).Some?
    ensures
      var c := StateAt(p, watch, tries, k).value.count;
      c.total == k && Counted(p, c, Restarts(watch, tries[..k]))
  {
    if k > 0 {
      CountedAt(p, watch, tries, k - 1);
      StateMore(p, watch, tries, k - 1);
      RestartsMore(watch, tries, k - 1);
      var was, t := StateAt(p, watch, tries, k - 1).value, tries[k - 1];
      JudgedKeeps(p, was.count, Restarts(watch, tries[..k - 1]), t.failed.value, Moved(watch, t), was.now + t.took,
        t.draw);
    }
  }

  /** The calls in all, up to one more from here: the tries, and as many again less one for each
      failure after progress. Without any it is the tries. */
  lemma CallsAreBounded(p: Policy, watch: bool, tries: seq<Try>, k: nat)
    requires k < |tries| && StateAt(p, watch, tries, k).Some?
    ensures k + 1 <= Tries(p) + Restarts(watch, tries[..k + 1]) * (Tries(p) - 1)
    ensures !watch ==> k + 1 <= Tries(p)
  {
    CountedAt(p, watch, tries, k);
    RestartsMore(watch, tries, k);
    MulMonotone(Restarts(watch, tries[..k]), Restarts(watch, tries[..k + 1]), Tries(p) - 1);
    NoneWithoutWatching(watch, tries[..k + 1]);
  }

  lemma {:induction false} NoneWithoutWatching(watch: bool, tries: seq<Try>)
    ensures !watch ==> Restarts(watch, tries) == 0
  {
    if tries != [] {
      NoneWithoutWatching(watch, tries[..|tries| - 1]);
    }
  }

  /** No attempt but the first starts at or past the deadline, counted from the last restart, and
      the wait before it is between half the step and the step. */
  lemma NoAttemptStartsLate(p: Policy, watch: bool, tries: seq<Try>, k: nat)
    requires 0 < k <= |tries| && StateAt(p, watch, tries, k).Some?
    ensures StateAt(p, watch, tries, k - 1).Some?
    ensures
      var was, now := StateAt(p, watch, tries, k - 1).value, StateAt(p, watch, tries, k).value;
      var failed := was.now + tries[k - 1].took;
      && now.count.start <= failed && now.now < now.count.start + p.deadline
      && failed + Step(p, now.count.attempt) / 2 <= now.now <= failed + Step(p, now.count.attempt)
      && now.count.start ==
         if watch && tries[k - 1].after > tries[k - 1].before then failed else was.count.start
  {
    StateMore(p, watch, tries, k - 1);
  }

  /** It gives up on a transient failure exactly when the tries are used up or the wait would
      reach the deadline, and at once on a permanent one. */
  lemma ItEndsIff(p: Policy, watch: bool, tries: seq<Try>, k: nat)
    requires k < |tries| && StateAt(p, watch, tries, k).Some? && tries[k].failed.Some?
    ensures
      var was, t := StateAt(p, watch, tries, k).value, tries[k];
      var now := was.now + t.took;
      var over := watch && t.after > t.before && t.failed == Some(Transient);
      var attempt, start := if over then 1 else was.count.attempt + 1, if over then now else was.count.start;
      StateAt(p, watch, tries, k + 1).None? <==>
        t.failed == Some(Permanent) || attempt >= p.attempts || now - start + Delay(p, attempt, t.draw) >= p.deadline
  {
    StateMore(p, watch, tries, k);
  }

  /** The longest the first attempts and the waits after them can take. */
  ghost function Spent(p: Policy, tries: seq<Try>): nat {
    if tries == [] then 0 else
    Spent(p, tries[..|tries| - 1]) + tries[|tries| - 1].took + Step(p, |tries|)
  }

  ghost predicate GettingNowhere(watch: bool, tries: seq<Try>, k: nat)
    requires k <= |tries|
  {
    forall i :: 0 <= i < k ==> tries[i].failed == Some(Transient) && !(watch && tries[i].after > tries[i].before)
  }

  lemma {:induction false} StillTrying(p: Policy, watch: bool, tries: seq<Try>, k: nat)
    requires k <= |tries| && k < Tries(p) && GettingNowhere(watch, tries, k)
    requires k > 0 ==> Spent(p, tries[..k]) < p.deadline
    ensures StateAt(p, watch, tries, k).Some?
    ensures var s := StateAt(p, watch, tries, k).value;
      s.count.attempt == k && s.count.start == 0 && s.now <= Spent(p, tries[..k])
  {
    if k > 0 {
      assert tries[..k][..k - 1] == tries[..k - 1];
      StillTrying(p, watch, tries, k - 1);
      StateMore(p, watch, tries, k - 1);
    }
  }

  /** Failures that are transient and get nowhere are tried again until exactly the tries are used
      up, as long as the attempts and the longest waits between them stay short of the deadline. */
  lemma AllTheTriesAreUsed(p: Policy, watch: bool, tries: seq<Try>)
    requires |tries| == Tries(p) && GettingNowhere(watch, tries, |tries|)
    requires |tries| > 1 ==> Spent(p, tries[..|tries| - 1]) < p.deadline
    ensures StateAt(p, watch, tries, |tries| - 1).Some? && StateAt(p, watch, tries, |tries|).None?
  {
    var n := |tries| - 1;
    StillTrying(p, watch, tries, n);
    ItEndsIff(p, watch, tries, n);
  }

  /** Run under a policy, for as long as the attempts are told: until one succeeds or the loop
      gives up. `None`: still going. */
  method Run(p: Policy, watch: bool, tries: seq<Try>) returns (r: Option<Outcome>, calls: nat)
    ensures calls <= |tries|
    ensures r.None? ==> calls == |tries| && StateAt(p, watch, tries, calls).Some?
    ensures r.Some? ==> calls > 0 && StateAt(p, watch, tries, calls - 1).Some? && StateAt(p, watch, tries, calls).None?
    ensures r.Some? ==> r.value == if tries[calls - 1].failed.None?
      then Succeeded else Failed(tries[calls - 1].failed.value)
  {
    var now: nat, start: nat, attempt: nat, total: nat := 0, 0, 0, 0;
    calls := 0;
    while calls < |tries|
      invariant calls <= |tries| && start <= now
      invariant StateAt(p, watch, tries, calls) == Some(Running(Count(attempt, total, start), now))
      decreases |tries| - calls
    {
      var t := tries[calls];
      StateMore(p, watch, tries, calls);
      ghost var was := Running(Count(attempt, total, start), now);
      attempt, total, calls := attempt + 1, total + 1, calls + 1;
      now := now + t.took;
      if t.failed.None? {
        return Some(Succeeded), calls;
      }
      var next := AfterFailure(p, watch, t, Count(attempt, total, start), now, was);
      if next.None? {
        return Some(Failed(t.failed.value)), calls;
      }
      attempt, start, now := next.value.count.attempt, next.value.count.start, next.value.now;
    }
    r := None;
  }

  /** A failure at `now`: the count and the clock start over after progress, and then it waits or
      gives up. */
  method AfterFailure(p: Policy, watch: bool, t: Try, c: Count, now: nat, ghost was: Running)
        returns (next: Option<Running>)
    requires t.failed.Some? && was.count.start <= was.now && c == Begun(was.count) && now == was.now + t.took
    ensures next == Next(p, watch, was, t) && (next.Some? ==> next.value.count.total == c.total)
  {
    var kind, attempt, start := t.failed.value, c.attempt, c.start;
    if watch && kind.Transient? && t.after > t.before {
      attempt, start := 1, now;
    }
    var wait := Delay(p, attempt, t.draw);
    if kind.Permanent? || attempt >= p.attempts || now - start + wait >= p.deadline {
      return None;
    }
    next := Some(Running(Count(attempt, c.total, start), now + wait));
  }
}
