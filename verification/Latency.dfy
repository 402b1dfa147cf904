/** The node's latency gauge (src/fglat.rs:61-135): half-octave bins kept per second in a ring,
    and quantiles read off the last seconds of it. */
module Latency {
  import opened Arithmetic
  import opened Options

  const SECONDS: nat := 64
  const BINS: nat := 64

  // ---------------------------------------------------------------- bins

  /** The position of the highest bit. */
  function Lg(us: nat): (k: nat)
    requires us > 0
    ensures Pow2(k) <= us < 2 * Pow2(k)
  {
    if us == 1 then 0 else 1 + Lg(us / 2)
  }

  function AtLeastOne(us: nat): nat {
    if us < 1 then 1 else us
  }

  /** Two bins an octave: the bit below the highest says which half. */
  function BinOf(us: nat): (b: nat)
    ensures b < BINS
  {
    var lg := Lg(AtLeastOne(us));
    var half := if lg >= 1 then AtLeastOne(us) / Pow2(lg - 1) % 2 else 0;
    if 2 * lg + half < BINS then 2 * lg + half else BINS - 1
  }

  /** Twice the least duration of a bin; the next bin's is where it ends. */
  function TwiceLow(bin: nat): nat {
    if bin % 2 == 1 then 3 * Pow2(bin / 2) else 2 * Pow2(bin / 2)
  }

  /** Four times a bin's midpoint. */
  function FourTimesMiddle(bin: nat): nat {
    TwiceLow(bin) + TwiceLow(bin + 1)
  }

  /** What is reported for a bin, in whole microseconds. */
  function BinValue(bin: nat): nat {
    FourTimesMiddle(bin) / 4
  }

  lemma {:induction false} Pow2Monotone(a: nat, b: nat)
    requires a <= b
    ensures Pow2(a) <= Pow2(b)
    decreases b
  {
    if a < b {
      Pow2Monotone(a, b - 1);
    }
  }

  lemma Pow2Of32()
    ensures Pow2(32) == 0x1_0000_0000
  {
    assert Pow2(4) == 16 && Pow2(8) == 256;
    assert Pow2(16) == 65536 by { assert Pow2(12) == 4096; }
    assert Pow2(20) == 0x10_0000;
    assert Pow2(24) == 0x100_0000;
    assert Pow2(28) == 0x1000_0000;
  }

  lemma HalfIs(us: nat, lg: nat)
    requires lg >= 1 && Pow2(lg) <= us < 2 * Pow2(lg)
    ensures us / Pow2(lg - 1) % 2 == if us >= 3 * Pow2(lg - 1) then 1 else 0
  {
    var p := Pow2(lg - 1);
    assert Pow2(lg) == 2 * p;
    if us >= 3 * p {
      DivIs(us, 3, p);
    } else {
      DivIs(us, 2, p);
    }
  }

  /** A duration is in its bin exactly when it is below 2^32 us; longer ones are put in the last. */
  lemma ADurationIsInItsBinIff(us: nat)
    ensures us < 0x1_0000_0000 <==> TwiceLow(BinOf(us)) <= 2 * AtLeastOne(us) < TwiceLow(BinOf(us) + 1)
    ensures us >= 0x1_0000_0000 ==> BinOf(us) == BINS - 1
  {
    var x := AtLeastOne(us);
    var lg := Lg(x);
    ShortIff(x, lg);
    if lg >= 1 {
      HalfIs(x, lg);
    }
    if lg < 32 {
      InBin(x, lg);
    } else {
      Pow2Of32();
      assert TwiceLow(64) == 2 * Pow2(32);
    }
  }

  lemma ShortIff(x: nat, lg: nat)
    requires Pow2(lg) <= x < 2 * Pow2(lg)
    ensures x < 0x1_0000_0000 <==> lg < 32
  {
    Pow2Of32();
    if lg >= 32 {
      Pow2Monotone(32, lg);
    } else {
      Pow2Monotone(lg + 1, 32);
      assert Pow2(lg + 1) == 2 * Pow2(lg);
    }
  }

  lemma InBin(x: nat, lg: nat)
    requires x >= 1 && lg == Lg(x) && lg < 32 && (lg >= 1 ==>
      x / Pow2(lg - 1) % 2 == if x >= 3 * Pow2(lg - 1) then 1 else 0)
    ensures TwiceLow(BinOf(x)) <= 2 * x < TwiceLow(BinOf(x) + 1)
  {
    var b := BinOf(x);
    assert b / 2 == lg;
    if b % 2 == 0 {
      assert (b + 1) / 2 == lg && (b + 1) % 2 == 1;
    } else {
      assert (b + 1) / 2 == lg + 1 && (b + 1) % 2 == 0;
    }
  }

  /** A longer duration is never in an earlier bin. */
  lemma BinsAreMonotone(a: nat, b: nat)
    requires a <= b
    ensures BinOf(a) <= BinOf(b)
  {
    var x, y := AtLeastOne(a), AtLeastOne(b);
    var l, m := Lg(x), Lg(y);
    assert Pow2(m + 1) == 2 * Pow2(m);
    if l > m {
      Pow2Monotone(m + 1, l);
    } else if l == m && l >= 1 {
      HalfIs(x, l);
      HalfIs(y, m);
    }
  }

  /** The middle of its bin is within 5/6 to 5/4 of a duration. */
  lemma TheMiddleIsClose(us: nat)
    requires 1 <= us < 0x1_0000_0000
    ensures 5 * (4 * us) < 6 * FourTimesMiddle(BinOf(us)) && 4 * FourTimesMiddle(BinOf(us)) <= 5 * (4 * us)
  {
    ADurationIsInItsBinIff(us);
    var b := BinOf(us);
    if b % 2 == 0 {
      assert (b + 1) / 2 == b / 2 && (b + 1) % 2 == 1;
    } else {
      assert (b + 1) / 2 == b / 2 + 1 && (b + 1) % 2 == 0;
    }
  }

  // ---------------------------------------------------------------- what was recorded

  datatype Rec = Rec(second: nat, us: nat)

  ghost function Count(log: seq<Rec>, p: Rec -> bool): (n: nat)
    ensures n <= |log|
  {
    if log == [] then 0 else Count(log[..|log| - 1], p) + if p(log[|log| - 1]) then 1 else 0
  }

  lemma {:induction false} CountSame(log: seq<Rec>, p: Rec -> bool, q: Rec -> bool)
    requires forall r <- log :: p(r) == q(r)
    ensures Count(log, p) == Count(log, q)
  {
    if log != [] {
      CountSame(log[..|log| - 1], p, q);
      assert log[|log| - 1] in log;
    }
  }

  lemma {:induction false} CountLess(log: seq<Rec>, p: Rec -> bool, q: Rec -> bool)
    requires forall r <- log :: p(r) ==> q(r)
    ensures Count(log, p) <= Count(log, q)
  {
    if log != [] {
      CountLess(log[..|log| - 1], p, q);
      assert log[|log| - 1] in log;
    }
  }

  lemma {:induction false} CountSum(log: seq<Rec>, p: Rec -> bool, q: Rec -> bool, both: Rec -> bool)
    requires forall r <- log :: !(p(r) && q(r)) && both(r) == (p(r) || q(r))
    ensures Count(log, both) == Count(log, p) + Count(log, q)
  {
    if log != [] {
      CountSum(log[..|log| - 1], p, q, both);
      assert log[|log| - 1] in log;
    }
  }

  lemma {:induction false} CountNone(log: seq<Rec>, p: Rec -> bool)
    requires forall r <- log :: !p(r)
    ensures Count(log, p) == 0
  {
    if log != [] {
      CountNone(log[..|log| - 1], p);
      assert log[|log| - 1] in log;
    }
  }

  lemma CountPush(log: seq<Rec>, r: Rec, p: Rec -> bool)
    ensures Count(log + [r], p) == Count(log, p) + if p(r) then 1 else 0
  {
    assert (log + [r])[..|log|] == log;
  }

  function At(second: nat, bin: nat): Rec -> bool {
    (r: Rec) => r.second == second && BinOf(r.us) == bin
  }

  predicate InWindow(r: Rec, now: nat, secs: nat) {
    r.second <= now && now - r.second < secs
  }

  function Within(now: nat, secs: nat): Rec -> bool {
    (r: Rec) => InWindow(r, now, secs)
  }

  function InBinOf(now: nat, secs: nat, bin: nat): Rec -> bool {
    (r: Rec) => InWindow(r, now, secs) && BinOf(r.us) == bin
  }

  /** In a bin below this one. */
  function Below(now: nat, secs: nat, bin: nat): Rec -> bool {
    (r: Rec) => InWindow(r, now, secs) && BinOf(r.us) < bin
  }

  /** In the bin, and counted in one of the ring's first slots. */
  function InSlots(now: nat, secs: nat, bin: nat, slots: nat): Rec -> bool {
    (r: Rec) => InWindow(r, now, secs) && BinOf(r.us) == bin && r.second % SECONDS < slots
  }

  function InSlot(now: nat, secs: nat, bin: nat, slot: nat): Rec -> bool {
    (r: Rec) => InWindow(r, now, secs) && BinOf(r.us) == bin && r.second % SECONDS == slot
  }

  function AtMostLong(now: nat, secs: nat, us: nat): Rec -> bool {
    (r: Rec) => InWindow(r, now, secs) && r.us <= us
  }

  function Shorter(now: nat, secs: nat, us: nat): Rec -> bool {
    (r: Rec) => InWindow(r, now, secs) && r.us < us
  }

  lemma Share(total: real, c: real)
    requires total >= 0.0 && 0.0 <= c <= 1.0
    ensures 0.0 <= total * c <= total
  {
    assert total == total * c + total * (1.0 - c);
  }

  /** How many of the window's records the quantile is at or above. */
  function Want(total: nat, q: real): (w: nat)
    ensures total > 0 ==> 1 <= w <= total
  {
    var c := if q < 0.0 then 0.0 else if q > 1.0 then 1.0 else q;
    var x := total as real * c;
    Share(total as real, c);
    var w := -((-x).Floor);
    if w < 1 then 1 else w
  }

  /** The bin of the `want`th shortest record of the window. */
  ghost predicate IsQuantileBin(log: seq<Rec>, now: nat, secs: nat, want: nat, bin: nat) {
    Count(log, Below(now, secs, bin)) < want <= Count(log, Below(now, secs, bin + 1))
  }

  /** It is the bin of the true quantile: the duration at most which at least `want` of the
      window's records are, and fewer than `want` shorter. */
  lemma TheBinHoldsTheTrueQuantile(log: seq<Rec>, now: nat, secs: nat, want: nat, bin: nat, us: nat)
    requires IsQuantileBin(log, now, secs, want, bin)
    requires Count(log, Shorter(now, secs, us)) < want <= Count(log, AtMostLong(now, secs, us))
    ensures bin == BinOf(us)
  {
    var b := BinOf(us);
    forall r <- log
      ensures r.us <= us ==> BinOf(r.us) <= b
      ensures BinOf(r.us) < b ==> r.us < us
    {
      if r.us <= us {
        BinsAreMonotone(r.us, us);
      } else {
        BinsAreMonotone(us, r.us);
      }
    }
    CountLess(log, AtMostLong(now, secs, us), Below(now, secs, b + 1));
    CountLess(log, Below(now, secs, b), Shorter(now, secs, us));
    if bin < b {
      CountLess(log, Below(now, secs, bin + 1), Below(now, secs, b));
    } else if b < bin {
      CountLess(log, Below(now, secs, b + 1), Below(now, secs, bin));
    }
  }

  /** So what is reported, before it is cut to whole microseconds, is within 5/6 to 5/4 of the
      true quantile. */
  lemma TheReportIsClose(log: seq<Rec>, now: nat, secs: nat, want: nat, bin: nat, us: nat)
    requires IsQuantileBin(log, now, secs, want, bin) && 1 <= us < 0x1_0000_0000
    requires Count(log, Shorter(now, secs, us)) < want <= Count(log, AtMostLong(now, secs, us))
    ensures 5 * (4 * us) < 6 * FourTimesMiddle(bin) && 4 * FourTimesMiddle(bin) <= 5 * (4 * us)
  {
    TheBinHoldsTheTrueQuantile(log, now, secs, want, bin, us);
    TheMiddleIsClose(us);
  }

  ghost function ShareOf(total: nat, q: real): real {
    if q <= 0.0 then 0.0 else if q >= 1.0 then total as real else q * total as real
  }

  /** The duration of a record of the window such that at least the share `q` of the window's
      records are no longer, and fewer than that share are shorter: none where the share is no
      more than one record. A share below none or above all is taken as none or all. */
  ghost predicate IsQuantile(log: seq<Rec>, now: nat, secs: nat, q: real, us: nat) {
    var share := ShareOf(Count(log, Within(now, secs)), q);
    && (exists r <- log :: InWindow(r, now, secs) && r.us == us)
    && Count(log, AtMostLong(now, secs, us)) as real >= share
    && (share > 1.0 ==> Count(log, Shorter(now, secs, us)) as real < share)
    && (share <= 1.0 ==> Count(log, Shorter(now, secs, us)) == 0)
  }

  /** What is reported of a duration, in whole microseconds: five quarters of the greatest power of
      two in it, or seven where it is at least one and a half times that power. Nothing counts as
      one, and everything from 2^32 on is reported as if it were just below. */
  ghost predicate IsReported(us: nat, v: nat) {
    var x := if us == 0 then 1 else us;
    if us >= 0x1_0000_0000 then v == 7 * 0x8000_0000 / 4
    else exists k :: Pow2(k) <= x < 2 * Pow2(k) && v == (if 2 * x < 3 * Pow2(k) then 5 else 7) * Pow2(k) / 4
  }

  /** The rank sought is the share, rounded up, of at least one. */
  lemma TheRankIsTheShare(total: nat, q: real, n: nat)
    requires total > 0
    ensures
      var share := ShareOf(total, q);
      && (n >= Want(total, q) ==> n as real >= share)
      && (n < Want(total, q) && share > 1.0 ==> n as real < share)
      && (n < Want(total, q) && share <= 1.0 ==> n == 0)
  {
    var c := if q < 0.0 then 0.0 else if q > 1.0 then 1.0 else q;
    var x := total as real * c;
    assert x == ShareOf(total, q);
    var w := -((-x).Floor);
    assert w as real - 1.0 < x <= w as real;
  }

  lemma {:induction false} Longest(log: seq<Rec>) returns (us: nat)
    ensures forall r <- log :: r.us <= us
  {
    if log == [] {
      us := 0;
    } else {
      var m := Longest(log[..|log| - 1]);
      us := if m < log[|log| - 1].us then log[|log| - 1].us else m;
      assert forall r <- log :: r in log[..|log| - 1] || r == log[|log| - 1];
    }
  }

  /** The shortest duration that as many are no longer than as are sought. */
  lemma {:induction false} TheLeastReaching(log: seq<Rec>, now: nat, secs: nat, want: nat, bound: nat) returns (us: nat)
    requires 1 <= want <= Count(log, AtMostLong(now, secs, bound))
    ensures Count(log, Shorter(now, secs, us)) < want <= Count(log, AtMostLong(now, secs, us))
    decreases bound
  {
    if bound == 0 {
      us := 0;
      CountNone(log, Shorter(now, secs, 0));
    } else if Count(log, AtMostLong(now, secs, bound - 1)) >= want {
      us := TheLeastReaching(log, now, secs, want, bound - 1);
    } else {
      us := bound;
      CountSame(log, Shorter(now, secs, bound), AtMostLong(now, secs, bound - 1));
    }
  }

  lemma OneIsThatLong(log: seq<Rec>, now: nat, secs: nat, us: nat)
    requires Count(log, Shorter(now, secs, us)) < Count(log, AtMostLong(now, secs, us))
    ensures exists r <- log :: InWindow(r, now, secs) && r.us == us
  {
    if forall r <- log :: InWindow(r, now, secs) ==> r.us != us {
      CountSame(log, Shorter(now, secs, us), AtMostLong(now, secs, us));
    }
  }

  /** Some record of the window has the quantile's duration, of the rank sought. */
  lemma TheTrueQuantile(log: seq<Rec>, now: nat, secs: nat, total: nat, q: real) returns (us: nat)
    requires total == Count(log, Within(now, secs)) > 0
    ensures IsQuantile(log, now, secs, q, us)
    ensures Count(log, Shorter(now, secs, us)) < Want(total, q) <= Count(log, AtMostLong(now, secs, us))
  {
    var longest := Longest(log);
    CountSame(log, AtMostLong(now, secs, longest), Within(now, secs));
    us := TheLeastReaching(log, now, secs, Want(total, q), longest);
    var shorter, most := Count(log, Shorter(now, secs, us)), Count(log, AtMostLong(now, secs, us));
    TheRankIsTheShare(total, q, most);
    TheRankIsTheShare(total, q, shorter);
    OneIsThatLong(log, now, secs, us);
  }

  /** What is read off a duration's bin is what is reported of it. */
  lemma TheBinIsReported(us: nat)
    ensures IsReported(us, BinValue(BinOf(us)))
  {
    var x := AtLeastOne(us);
    var lg := Lg(x);
    ShortIff(x, lg);
    if lg >= 1 {
      HalfIs(x, lg);
    }
    if lg < 32 {
      var b := BinOf(us);
      assert b / 2 == lg;
      assert b % 2 == 1 <==> 2 * x >= 3 * Pow2(lg);
      assert FourTimesMiddle(b) == (if 2 * x < 3 * Pow2(lg) then 5 else 7) * Pow2(lg);
    } else {
      Pow2Of32();
      assert Pow2(32) == 2 * Pow2(31);
      assert FourTimesMiddle(63) == 7 * Pow2(31);
    }
  }

  // ---------------------------------------------------------------- the ring

  /** What a slot of the ring says of everything recorded. */
  ghost predicate SlotTells(log: seq<Rec>, slot: nat, second: nat, bins: seq<nat>)
    requires |bins| == BINS
  {
    && (forall r <- log :: r.second % SECONDS == slot ==> r.second <= second)
    && (second != 0 ==> second % SECONDS == slot)
    && (forall b :: 0 <= b < BINS ==> bins[b] == if second == 0 then 0 else Count(log, At(second, b)))
  }

  ghost predicate Clocked(log: seq<Rec>) {
    && (forall r <- log :: r.second >= 1)
    && (forall i, j :: 0 <= i < j < |log| ==> log[i].second <= log[j].second)
  }

  predicate Live(second: nat, now: nat, secs: nat) {
    second != 0 && second <= now && now - second < secs
  }

  lemma SameSecond(a: nat, b: nat)
    requires a <= b && b - a < SECONDS && a % SECONDS == b % SECONDS
    ensures a == b
  {
  }

  /** What a slot adds to a bin of the window is what the whole log has there. */
  lemma SlotAdds(log: seq<Rec>, slot: nat, second: nat, bins: seq<nat>, now: nat, secs: nat, b: nat)
    requires |bins| == BINS && SlotTells(log, slot, second, bins) && Clocked(log) && b < BINS && secs < SECONDS
    requires second <= now
    ensures Count(log, InSlot(now, secs, b, slot)) == if Live(second, now, secs) then bins[b] else 0
  {
    if Live(second, now, secs) {
      forall r <- log
        ensures InSlot(now, secs, b, slot)(r) == At(second, b)(r)
      {
        if InSlot(now, secs, b, slot)(r) {
          SameSecond(r.second, second);
        }
      }
      CountSame(log, InSlot(now, secs, b, slot), At(second, b));
    } else {
      forall r <- log
        ensures !InSlot(now, secs, b, slot)(r)
      {
      }
      CountNone(log, InSlot(now, secs, b, slot));
    }
  }

  lemma SlotStillTells(log: seq<Rec>, r: Rec, slot: nat, second: nat, was: seq<nat>, now: seq<nat>)
    requires |was| == |now| == BINS && SlotTells(log, slot, second, was)
    requires r.second >= 1 && (r.second % SECONDS == slot ==> r.second == second) &&
      (second == r.second ==> r.second % SECONDS == slot)
    requires forall b :: 0 <= b < BINS ==> now[b] == was[b] + if r.second == second && BinOf(r.us) == b then 1 else 0
    ensures SlotTells(log + [r], slot, second, now)
  {
    forall c | 0 <= c < BINS
      ensures now[c] == if second == 0 then 0 else Count(log + [r], At(second, c))
    {
      CountPush(log, r, At(second, c));
    }
  }

  lemma SlotsMore(log: seq<Rec>, now: nat, secs: nat, b: nat, slot: nat)
    ensures Count(log, InSlots(now, secs, b, slot + 1)) == Count(log, InSlots(now, secs, b, slot)) +
      Count(log, InSlot(now, secs, b, slot))
  {
    CountSum(log, InSlots(now, secs, b, slot), InSlot(now, secs, b, slot), InSlots(now, secs, b, slot + 1));
  }

  lemma BinsMore(log: seq<Rec>, now: nat, secs: nat, b: nat)
    ensures Count(log, Below(now, secs, b + 1)) == Count(log, Below(now, secs, b)) + Count(log, InBinOf(now, secs, b))
  {
    CountSum(log, Below(now, secs, b), InBinOf(now, secs, b), Below(now, secs, b + 1));
  }

  /** The seconds a window is read over: the nearest to it of 1 to 63. */
  function Secs(window: nat): (s: nat)
    ensures 1 <= s <= 63 && (s == window || window < 1 == s || 63 == s < window)
  {
    if window < 1 then 1 else if window > SECONDS - 1 then SECONDS - 1 else window
  }

  /** One class's ring, for a node moving extents or not. */
  class Ring {
    const seconds: array<nat>
    const bins: array2<nat>
    /** Every record ever made. */
    ghost var log: seq<Rec>
    /** The last second recorded in. */
    ghost var clock: nat

    ghost function Bins(slot: nat): (r: seq<nat>)
      requires bins.Length0 == SECONDS && bins.Length1 == BINS && slot < SECONDS
      reads bins
      ensures |r| == BINS && forall b :: 0 <= b < BINS ==> r[b] == bins[slot, b]
    {
      seq(BINS, b requires 0 <= b < BINS reads bins => bins[slot, b])
    }

    ghost predicate Valid()
      reads this, seconds, bins
    {
      && seconds.Length == SECONDS && bins.Length0 == SECONDS && bins.Length1 == BINS && Clocked(log)
      && (forall r <- log :: r.second <= clock)
      && (forall j :: 0 <= j < SECONDS ==> seconds[j] <= clock)
      && forall j :: 0 <= j < SECONDS ==> SlotTells(log, j, seconds[j], Bins(j))
    }

    constructor ()
      ensures Valid() && log == [] && clock == 0 && fresh(seconds) && fresh(bins)
    {
      seconds := new nat[SECONDS](_ => 0);
      bins := new nat[SECONDS, BINS]((_, _) => 0);
      log, clock := [], 0;
    }

    /** Count one request; the slot of a new second starts empty. */
    method RecordAt(second: nat, us: nat)
      requires Valid() && second >= 1 && second >= clock
      modifies this, seconds, bins
      ensures Valid() && log == old(log) + [Rec(second, us)] && clock == second
    {
      clock := second;
      var slot := second % SECONDS;
      ghost var was := log;
      Begin(slot, second);
      label L:
      var b := BinOf(us);
      bins[slot, b] := bins[slot, b] + 1;
      log := log + [Rec(second, us)];
      forall j | 0 <= j < SECONDS
        ensures SlotTells(log, j, seconds[j], Bins(j))
      {
        SlotStillTells(was, Rec(second, us), j, seconds[j], old@L(Bins(j)), Bins(j));
      }
    }

    /** A slot that counted another second is cleared. */
    method Begin(slot: nat, second: nat)
      requires Valid() && 1 <= second == clock && slot == second % SECONDS
      modifies seconds, bins
      ensures Valid() && seconds[slot] == second
    {
      if seconds[slot] == second {
        return;
      }
      assert forall r <- log :: r.second != second;
      seconds[slot] := second;
      for i := 0 to BINS
        invariant forall j :: 0 <= j < SECONDS && j != slot ==> seconds[j] == old(seconds[j])
        invariant seconds[slot] == second
        invariant forall j, c :: 0 <= j < SECONDS && 0 <= c < BINS && j != slot ==> bins[j, c] == old(bins[j, c])
        invariant forall c :: 0 <= c < i ==> bins[slot, c] == 0
      {
        bins[slot, i] := 0;
      }
      forall c | 0 <= c < BINS
        ensures Count(log, At(second, c)) == 0
      {
        CountNone(log, At(second, c));
      }
      forall j | 0 <= j < SECONDS
        ensures SlotTells(log, j, seconds[j], Bins(j))
      {
        assert j != slot ==> Bins(j) == old(Bins(j));
      }
    }

    /** The window's records, bin by bin. */
    method SumUp(now: nat, secs: nat) returns (sum: seq<nat>)
      requires Valid() && clock <= now && secs < SECONDS
      ensures |sum| == BINS && forall b :: 0 <= b < BINS ==> sum[b] == Count(log, InBinOf(now, secs, b))
    {
      sum := seq(BINS, _ => 0);
      forall b | 0 <= b < BINS
        ensures Count(log, InSlots(now, secs, b, 0)) == 0
      {
        CountNone(log, InSlots(now, secs, b, 0));
      }
      for j := 0 to SECONDS
        invariant |sum| == BINS
        invariant forall b :: 0 <= b < BINS ==> sum[b] == Count(log, InSlots(now, secs, b, j))
      {
        var s := seconds[j];
        forall b | 0 <= b < BINS
          ensures Count(log, InSlots(now, secs, b, j + 1)) == sum[b] + if Live(s, now, secs) then bins[j, b] else 0
        {
          SlotsMore(log, now, secs, b, j);
          SlotAdds(log, j, s, Bins(j), now, secs, b);
        }
        if Live(s, now, secs) {
          sum := AddRow(sum, j);
        }
      }
      forall b | 0 <= b < BINS
        ensures Count(log, InSlots(now, secs, b, SECONDS)) == Count(log, InBinOf(now, secs, b))
      {
        CountSame(log, InSlots(now, secs, b, SECONDS), InBinOf(now, secs, b));
      }
    }

    method AddRow(was: seq<nat>, j: nat) returns (sum: seq<nat>)
      requires |was| == BINS && bins.Length0 == SECONDS && bins.Length1 == BINS && j < SECONDS
      ensures |sum| == BINS && forall b :: 0 <= b < BINS ==> sum[b] == was[b] + bins[j, b]
    {
      sum := was;
      for i := 0 to BINS
        invariant |sum| == BINS && forall b :: 0 <= b < BINS ==> sum[b] == was[b] + if b < i then bins[j, b] else 0
      {
        sum := sum[i := sum[i] + bins[j, i]];
      }
    }

    /** The quantile over the last seconds: none with nothing counted, else what is reported of
        the record whose duration is the quantile, and of how many requests it is. */
    method QuantileAt(now: nat, window: nat, q: real) returns (r: Option<(nat, nat)>)
      requires Valid() && clock <= now
      ensures r.None? <==> Count(log, Within(now, Secs(window))) == 0
      ensures r.Some? ==> r.value.1 == Count(log, Within(now, Secs(window)))
      ensures r.Some? ==> exists us :: IsQuantile(log, now, Secs(window), q, us) && IsReported(us, r.value.0)
    {
      var secs := Secs(window);
      var sum := SumUp(now, secs);
      var total := 0;
      CountNone(log, Below(now, secs, 0));
      for i := 0 to BINS
        invariant total == Count(log, Below(now, secs, i))
      {
        BinsMore(log, now, secs, i);
        total := total + sum[i];
      }
      CountSame(log, Below(now, secs, BINS), Within(now, secs));
      if total == 0 {
        return None;
      }
      var want := Want(total, q);
      var seen := 0;
      for i := 0 to BINS
        invariant seen == Count(log, Below(now, secs, i)) && seen < want
      {
        BinsMore(log, now, secs, i);
        seen := seen + sum[i];
        if seen >= want {
          ghost var us := TheTrueQuantile(log, now, secs, total, q);
          TheBinHoldsTheTrueQuantile(log, now, secs, want, i, us);
          TheBinIsReported(us);
          return Some((BinValue(i), total));
        }
      }
      assert false;
    }
  }
}
