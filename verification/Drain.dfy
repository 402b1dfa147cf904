/** Draining a drive (src/drain.rs:137-382): move every leg off its slabs, one at a time, until
    nothing is left or what is left will not move, and pay for what moved every 64 moves and at the
    end. A drain is told what the maps list and how each move and each persist goes. */
module Drain {
  import opened Options
  import opened Sets
  import opened Restart
  import opened Relocation
  import opened SlotTables
  import opened Records
  import opened FailedPersists
  import opened Checkpoints

  type Leg = Slot

  datatype State = Running | Empty | Stuck | Cancelled

  /** How one move went. After a failure the extent's leg on the slab is looked up again: it may
      be there still, be another, or be gone. */
  datatype Move = Moved(to: Leg) | Busy | Failed(found: Option<Leg>)

  /** One pass: whether it was cancelled, the legs the maps list on the drive when a leg is
      picked, how its move went, the legs listed when that was done, and how a persist goes if the
      pass makes one. */
  datatype Pass = Pass(cancelled: bool, listed: seq<Leg>, move: Move, after: seq<Leg>, flushed: bool, how: Ending)

  /** Moves between two persists. */
  const BATCH: nat := 64

  /** The first leg that has not failed to move. */
  function Pick(listed: seq<Leg>, stuck: set<Leg>): (r: Option<Leg>)
    ensures r.None? <==> forall l <- listed :: l in stuck
    ensures r.Some? ==> r.value in listed && r.value !in stuck
  {
    if listed == [] then None else if listed[0] !in stuck then Some(listed[0]) else Pick(listed[1..], stuck)
  }

  lemma {:induction false} PickIsTheFirst(listed: seq<Leg>, stuck: set<Leg>, i: nat)
    requires i < |listed| && listed[i] !in stuck && forall j :: 0 <= j < i ==> listed[j] in stuck
    ensures Pick(listed, stuck) == Some(listed[i])
  {
    if i > 0 {
      PickIsTheFirst(listed[1..], stuck, i - 1);
    }
  }

  ghost function Legs(listed: seq<Leg>): set<Leg> {
    set l | l in listed
  }

  function StuckAfter(p: Pass, stuck: set<Leg>): set<Leg> {
    if Pick(p.listed, stuck).Some? && p.move.Failed? && p.move.found.Some? then stuck + {p.move.found.value} else stuck
  }

  ghost function StuckAt(passes: seq<Pass>): set<Leg> {
    if passes == [] then {} else StuckAfter(passes[|passes| - 1], StuckAt(passes[..|passes| - 1]))
  }

  /** Each pass found a leg to move, and none was cancelled. */
  ghost predicate Working(passes: seq<Pass>) {
    passes == [] ||
    var n := |passes| - 1;
    Working(passes[..n]) && !passes[n].cancelled && Pick(passes[n].listed, StuckAt(passes[..n])).Some?
  }

  // ---------------------------------------------------------------- the node's books

  /** The node, and the sources not paid for yet. */
  datatype Books = Books(pool: Pool, owed: seq<Slot>)

  ghost predicate Balanced(b: Books, who: Mover) {
    && Formed(b.pool) && OwedBy(b.pool, who, b.owed) && |b.owed| < 64
    && (forall s <- b.pool.debt :: s in b.pool.mem && Unnamed(b.pool.live, s))
  }

  /** What the maps name on the drive. */
  ghost predicate Lists(p: Pool, drive: set<Slot>, listed: seq<Leg>) {
    Legs(listed) == p.live.Values * drive
  }

  ghost function MoveOne(b: Books, who: Mover, p: Pass, stuck: set<Leg>): Books
    requires Told(b, p, stuck)
  {
    var pick := Pick(p.listed, stuck);
    if pick.Some? && p.move.Moved?
    then Books(Checkpoints.Moved(b.pool, who, pick.value, p.move.to), b.owed + [pick.value])
    else b
  }

  /** A move that went through was possible. */
  ghost predicate Told(b: Books, p: Pass, stuck: set<Leg>) {
    var pick := Pick(p.listed, stuck);
    pick.Some? && p.move.Moved? ==> Movable(b.pool, pick.value, p.move.to) && pick.value in b.pool.content
  }

  /** What it is told of the node is so, while the drain alone moves legs; the drive is quarantined
      and takes nothing new. */
  ghost predicate TrueOf(b: Books, who: Mover, drive: set<Slot>, p: Pass, stuck: set<Leg>) {
    && Told(b, p, stuck) && Lists(b.pool, drive, p.listed)
    && (p.move.Moved? ==> p.move.to !in drive)
    && (p.move.Failed? ==> p.move.found == Pick(p.listed, stuck))
    && var after := MoveOne(b, who, p, stuck).pool;
       Lists(after, drive, p.after) && CanEnd(after, p.flushed, p.how)
  }

  ghost function Settled(b: Books, who: Mover, p: Pass): Books
    requires Formed(b.pool) && OwedBy(b.pool, who, b.owed)
  {
    Books(PaidOff(b.pool, who, b.owed, p.flushed, p.how), [])
  }

  /** One pass: a leg moved, and a full batch paid for. */
  ghost function PassOn(b: Books, who: Mover, p: Pass, stuck: set<Leg>): Books
    requires Told(b, p, stuck) && Balanced(b, who)
  {
    var m := MoveOne(b, who, p, stuck);
    MoveOneIs(b, who, p, stuck);
    if |m.owed| >= BATCH then Settled(m, who, p) else m
  }

  lemma MoveOneIs(b: Books, who: Mover, p: Pass, stuck: set<Leg>)
    requires Told(b, p, stuck) && Balanced(b, who)
    ensures
      var m := MoveOne(b, who, p, stuck);
      && Formed(m.pool) && OwedBy(m.pool, who, m.owed) && SameReads(b.pool, m.pool)
      && (forall s <- m.pool.debt :: s in m.pool.mem && Unnamed(m.pool.live, s))
      && b.pool.mem.Keys <= m.pool.mem.Keys
  {
    var pick := Pick(p.listed, stuck);
    if pick.Some? && p.move.Moved? {
      MovedIs(b.pool, who, pick.value, p.move.to, b.owed);
    }
  }

  lemma SettledIs(b: Books, who: Mover, p: Pass)
    requires Formed(b.pool) && OwedBy(b.pool, who, b.owed)
    requires forall s <- b.pool.debt :: s in b.pool.mem && Unnamed(b.pool.live, s)
    ensures
      var t := Settled(b, who, p);
      && Balanced(t, who) && t.pool.live == b.pool.live && t.pool.content == b.pool.content
      && t.pool.mem == b.pool.mem - Slots(b.owed)
  {
    PaidOffIs(b.pool, who, b.owed, p.flushed, p.how);
  }

  lemma PassOnIs(b: Books, who: Mover, p: Pass, stuck: set<Leg>)
    requires Told(b, p, stuck) && Balanced(b, who)
    ensures
      var t := PassOn(b, who, p, stuck);
      Balanced(t, who) && SameReads(b.pool, t.pool) && t.pool.live == MoveOne(b, who, p, stuck).pool.live
    ensures |b.owed| + 1 < 64 ==> PassOn(b, who, p, stuck) == MoveOne(b, who, p, stuck)
  {
    var m := MoveOne(b, who, p, stuck);
    MoveOneIs(b, who, p, stuck);
    if |m.owed| >= BATCH {
      SettledIs(m, who, p);
    }
  }

  lemma PassOnMoved(b: Books, who: Mover, p: Pass, stuck: set<Leg>)
    requires Pick(p.listed, stuck).Some? && p.move.Moved? && Told(b, p, stuck) && Balanced(b, who)
    ensures
      var pick := Pick(p.listed, stuck).value;
      && Movable(b.pool, pick, p.move.to) && pick in b.pool.mem && pick in b.pool.content && pick != p.move.to
      && var m := Books(Checkpoints.Moved(b.pool, who, pick, p.move.to), b.owed + [pick]);
         && Formed(m.pool) && OwedBy(m.pool, who, m.owed)
         && PassOn(b, who, p, stuck) == if |m.owed| >= BATCH then Settled(m, who, p) else m
  {
    MoveOneIs(b, who, p, stuck);
  }

  /** The books after so many passes; what each pass is told is true of them. */
  ghost function BooksAfter(start: Pool, who: Mover, drive: set<Slot>, passes: seq<Pass>): Books
    requires AllTrue(start, who, drive, passes)
    decreases |passes|, 1
  {
    if passes == [] then Books(start, []) else
    var n := |passes| - 1;
    PassOn(BooksAfter(start, who, drive, passes[..n]), who, passes[n], StuckAt(passes[..n]))
  }

  ghost predicate AllTrue(start: Pool, who: Mover, drive: set<Slot>, passes: seq<Pass>)
    decreases |passes|, 0
  {
    if passes == [] then Balanced(Books(start, []), who) else
    var n := |passes| - 1;
    && AllTrue(start, who, drive, passes[..n])
    && var b := BooksAfter(start, who, drive, passes[..n]);
       Balanced(b, who) && TrueOf(b, who, drive, passes[n], StuckAt(passes[..n]))
  }

  /** The sources moved, in the order they were. */
  ghost function Left(passes: seq<Pass>): (r: seq<Slot>) {
    if passes == [] then [] else
    var n := |passes| - 1;
    var pick := Pick(passes[n].listed, StuckAt(passes[..n]));
    Left(passes[..n]) + if pick.Some? && passes[n].move.Moved? then [pick.value] else []
  }

  /** Whatever the persists came to, every volume reads what it did; and every leg moved is on the
      drive, and was freed or is one of the few still owed. */
  ghost predicate Kept(start: Pool, drive: set<Slot>, moved: seq<Slot>, b: Books) {
    SameReads(start, b.pool) && forall s <- moved :: s in drive && (s in b.owed || s !in b.pool.mem)
  }

  lemma {:induction false} NothingIsLostOrKept(start: Pool, who: Mover, drive: set<Slot>, passes: seq<Pass>)
    requires AllTrue(start, who, drive, passes)
    ensures
      var b := BooksAfter(start, who, drive, passes);
      Balanced(b, who) && Kept(start, drive, Left(passes), b)
  {
    if passes != [] {
      var n := |passes| - 1;
      var b, p, stuck := BooksAfter(start, who, drive, passes[..n]), passes[n], StuckAt(passes[..n]);
      NothingIsLostOrKept(start, who, drive, passes[..n]);
      PassOnIs(b, who, p, stuck);
      SameReadsChain(start, b.pool, PassOn(b, who, p, stuck).pool);
      PassKeeps(start, who, drive, Left(passes[..n]), b, p, stuck);
    }
  }

  lemma PassKeeps(start: Pool, who: Mover, drive: set<Slot>, moved: seq<Slot>, b: Books, p: Pass, stuck: set<Leg>)
    requires Balanced(b, who) && TrueOf(b, who, drive, p, stuck) && Kept(start, drive, moved, b)
    ensures
      var pick := Pick(p.listed, stuck);
      var t := PassOn(b, who, p, stuck);
      forall s <- moved + (if pick.Some? && p.move.Moved? then [pick.value] else []) ::
        s in drive && (s in t.owed || s !in t.pool.mem)
  {
    var pick, m, t := Pick(p.listed, stuck), MoveOne(b, who, p, stuck), PassOn(b, who, p, stuck);
    MoveOneIs(b, who, p, stuck);
    forall s <- moved + (if pick.Some? && p.move.Moved? then [pick.value] else [])
      ensures s in drive && (s in m.owed || s !in m.pool.mem)
    {
      if s !in moved {
        assert s == pick.value && s in Legs(p.listed);
      }
    }
    if |m.owed| >= BATCH {
      SettledIs(m, who, p);
    }
  }

  lemma NoneListed(p: Pool, drive: set<Slot>, listed: seq<Leg>)
    ensures Lists(p, drive, listed) ==> (listed == [] <==> p.live.Values !! drive)
  {
    if listed != [] {
      assert listed[0] in Legs(listed);
    } else {
      assert forall l <- p.live.Values :: l in drive ==> l in p.live.Values * drive;
    }
  }

  /** What a drain that ended leaves, whatever its persists came to: every volume reads what it
      did, every source it moved has been freed, and when it ended for want of a leg to try, it
      lists nothing exactly when the maps name nothing on the drive. */
  lemma WhatADrainLeaves(start: Pool, who: Mover, drive: set<Slot>, passes: seq<Pass>, last: Pass)
    requires AllTrue(start, who, drive, passes)
    requires TrueOf(BooksAfter(start, who, drive, passes), who, drive, last, StuckAt(passes))
    ensures Balanced(BooksAfter(start, who, drive, passes), who)
    ensures
      var t := Settled(BooksAfter(start, who, drive, passes), who, last);
      && t.owed == [] && SameReads(start, t.pool) && (forall s <- Left(passes) :: s in drive && s !in t.pool.mem)
      && (Pick(last.listed, StuckAt(passes)).None? ==> (last.after == [] <==> t.pool.live.Values !! drive))
  {
    var b := BooksAfter(start, who, drive, passes);
    NothingIsLostOrKept(start, who, drive, passes);
    SettledIs(b, who, last);
    NoneListed(b.pool, drive, last.after);
  }

  /** Each persist made was safe to free after. */
  ghost predicate AllSafe(start: Pool, who: Mover, drive: set<Slot>, passes: seq<Pass>)
    requires AllTrue(start, who, drive, passes)
  {
    passes == [] ||
    var n := |passes| - 1;
    && AllSafe(start, who, drive, passes[..n])
    && var m := MoveOne(BooksAfter(start, who, drive, passes[..n]), who, passes[n], StuckAt(passes[..n]));
       |m.owed| >= BATCH ==> SafeToFree(m.pool, m.owed, passes[n].flushed, passes[n].how)
  }

  /** Then the durable map goes on naming allocated slots that hold what was saved. */
  lemma {:induction false} SafePersistsKeep(start: Pool, who: Mover, drive: set<Slot>, passes: seq<Pass>)
    requires Inv(start) && AllTrue(start, who, drive, passes) && AllSafe(start, who, drive, passes)
    ensures Inv(BooksAfter(start, who, drive, passes).pool)
  {
    if passes != [] {
      var n := |passes| - 1;
      SafePersistsKeep(start, who, drive, passes[..n]);
      SafePass(BooksAfter(start, who, drive, passes[..n]), who, drive, passes[n], StuckAt(passes[..n]));
    }
  }

  /** And so it does after the last persist exactly when that one was safe too. */
  lemma TheLastPersistIff(start: Pool, who: Mover, drive: set<Slot>, passes: seq<Pass>, last: Pass)
    requires Inv(start) && AllTrue(start, who, drive, passes) && AllSafe(start, who, drive, passes)
    requires CanEnd(BooksAfter(start, who, drive, passes).pool, last.flushed, last.how)
    ensures
      var b := BooksAfter(start, who, drive, passes);
      Balanced(b, who) && (Inv(Settled(b, who, last).pool) <==> SafeToFree(b.pool, b.owed, last.flushed, last.how))
  {
    var b := BooksAfter(start, who, drive, passes);
    NothingIsLostOrKept(start, who, drive, passes);
    SafePersistsKeep(start, who, drive, passes);
    PaidOffIff(b.pool, who, b.owed, last.flushed, last.how);
  }

  lemma SafePass(b: Books, who: Mover, drive: set<Slot>, p: Pass, stuck: set<Leg>)
    requires Inv(b.pool) && Balanced(b, who) && TrueOf(b, who, drive, p, stuck)
    requires var m := MoveOne(b, who, p, stuck); |m.owed| >= BATCH ==> SafeToFree(m.pool, m.owed, p.flushed, p.how)
    ensures Inv(MoveOne(b, who, p, stuck).pool) && Inv(PassOn(b, who, p, stuck).pool)
  {
    var pick, m := Pick(p.listed, stuck), MoveOne(b, who, p, stuck);
    MoveOneIs(b, who, p, stuck);
    if pick.Some? && p.move.Moved? {
      MoveIsTwoSteps(b.pool, who, pick.value, p.move.to);
    }
    if |m.owed| >= BATCH {
      PaidOffIff(m.pool, who, m.owed, p.flushed, p.how);
    }
  }

  lemma {:induction false} TrueBefore(start: Pool, who: Mover, drive: set<Slot>, passes: seq<Pass>, k: nat)
    requires AllTrue(start, who, drive, passes) && k <= |passes|
    ensures AllTrue(start, who, drive, passes[..k])
    ensures k < |passes| ==>
      var b := BooksAfter(start, who, drive, passes[..k]);
      Balanced(b, who) && TrueOf(b, who, drive, passes[k], StuckAt(passes[..k]))
    decreases |passes|
  {
    if k == |passes| {
      assert passes[..k] == passes;
    } else {
      var n := |passes| - 1;
      TrueBefore(start, who, drive, passes[..n], k);
      assert passes[..n][..k] == passes[..k];
    }
  }

  /** The books after the first `k` passes. */
  ghost function BooksAt(start: Pool, who: Mover, drive: set<Slot>, passes: seq<Pass>, k: nat): (b: Books)
    requires AllTrue(start, who, drive, passes) && k <= |passes|
    ensures Balanced(b, who)
  {
    TrueBefore(start, who, drive, passes, k);
    NothingIsLostOrKept(start, who, drive, passes[..k]);
    BooksAfter(start, who, drive, passes[..k])
  }

  lemma BooksMore(start: Pool, who: Mover, drive: set<Slot>, passes: seq<Pass>, k: nat)
    requires AllTrue(start, who, drive, passes) && k < |passes|
    ensures
      var b, stuck := BooksAt(start, who, drive, passes, k), StuckAt(passes[..k]);
      TrueOf(b, who, drive, passes[k], stuck) && BooksAt(start, who, drive, passes, k + 1) ==
        PassOn(b, who, passes[k], stuck)
  {
    TrueBefore(start, who, drive, passes, k);
    TrueBefore(start, who, drive, passes, k + 1);
    assert passes[..k + 1][..k] == passes[..k];
  }

  // ---------------------------------------------------------------- how long a drain takes

  /** Legs only leave the drive; a leg that moved has left; a leg found after a failure is there. */
  ghost predicate OnlyLeave(passes: seq<Pass>) {
    passes == [] || (OnlyLeave(passes[..|passes| - 1]) && Leaves(passes))
  }

  ghost predicate Leaves(passes: seq<Pass>)
    requires passes != []
  {
    var n := |passes| - 1;
    var p := passes[n];
    var pick := Pick(p.listed, StuckAt(passes[..n]));
    && Legs(p.after) <= Legs(p.listed)
    && (n > 0 ==> Legs(p.listed) <= Legs(passes[n - 1].after))
    && (pick.Some? && p.move.Moved? ==> pick.value !in p.after)
    && (pick.Some? && p.move.Failed? && p.move.found.Some? ==> p.move.found.value in p.listed)
  }

  /** So it is while the drain alone moves legs. */
  lemma {:induction false} AloneTheyOnlyLeave(start: Pool, who: Mover, drive: set<Slot>, passes: seq<Pass>)
    requires AllTrue(start, who, drive, passes)
    ensures OnlyLeave(passes)
    ensures passes != [] ==>
      Legs(passes[|passes| - 1].after) == BooksAfter(start, who, drive, passes).pool.live.Values * drive
  {
    if passes != [] {
      var n := |passes| - 1;
      var b, p, stuck := BooksAfter(start, who, drive, passes[..n]), passes[n], StuckAt(passes[..n]);
      AloneTheyOnlyLeave(start, who, drive, passes[..n]);
      PassOnIs(b, who, p, stuck);
      OnePassLeaves(b, who, drive, p, stuck);
      assert n > 0 ==> passes[..n][n - 1] == passes[n - 1];
    }
  }

  lemma OnePassLeaves(b: Books, who: Mover, drive: set<Slot>, p: Pass, stuck: set<Leg>)
    requires Balanced(b, who) && TrueOf(b, who, drive, p, stuck)
    ensures Legs(p.after) <= Legs(p.listed)
    ensures Pick(p.listed, stuck).Some? && p.move.Moved? ==> Pick(p.listed, stuck).value !in p.after
  {
    var pick := Pick(p.listed, stuck);
    if pick.Some? && p.move.Moved? {
      var live := MoveOne(b, who, p, stuck).pool.live;
      forall l <- p.after
        ensures l in p.listed && l != pick.value
      {
        assert l in Legs(p.after) && l in live.Values;
        var k :| k in live && live[k] == l;
        assert b.pool.live[k] == l && l in Legs(p.listed);
      }
    }
  }

  /** Passes that found a leg but took none off the list of those to move. */
  predicate Retried(p: Pass, stuck: set<Leg>) {
    && Pick(p.listed, stuck).Some?
    && (p.move.Busy? || (p.move.Failed? && (p.move.found.None? || p.move.found.value in stuck)))
  }

  ghost function Retries(passes: seq<Pass>): nat {
    if passes == [] then 0 else
    var n := |passes| - 1;
    Retries(passes[..n]) + if Retried(passes[n], StuckAt(passes[..n])) then 1 else 0
  }

  /** Legs still to be moved. */
  ghost function ToMove(listed: seq<Leg>, stuck: set<Leg>): set<Leg> {
    Legs(listed) - stuck
  }

  lemma Smaller(a: set<Leg>, b: set<Leg>, l: Leg)
    requires a <= b && l in b && l !in a
    ensures |a| < |b|
  {
    SubsetSize(a, b - {l});
  }

  lemma OnePass(passes: seq<Pass>)
    requires passes != [] && Leaves(passes)
    requires Pick(passes[|passes| - 1].listed, StuckAt(passes[..|passes| - 1])).Some?
    ensures
      var n := |passes| - 1;
      var p, stuck := passes[n], StuckAt(passes[..n]);
      |ToMove(p.after, StuckAt(passes))| + (if Retried(p, stuck) then 0 else 1) <= |ToMove(p.listed, stuck)|
  {
    var n := |passes| - 1;
    var p, stuck := passes[n], StuckAt(passes[..n]);
    var pick := Pick(p.listed, stuck).value;
    var a, b := ToMove(p.after, StuckAt(passes)), ToMove(p.listed, stuck);
    if Retried(p, stuck) {
      SubsetSize(a, b);
    } else if p.move.Moved? {
      Smaller(a, b, pick);
    } else {
      Smaller(a, b, p.move.found.value);
    }
  }

  /** Each pass either takes a leg off the drive or gives it up, but for those that found it busy
      or changed: so there are no more passes with a leg to move than legs at the start and those
      retries. Others may take legs off meanwhile. */
  lemma {:induction false} PassesAreBounded(passes: seq<Pass>)
    requires OnlyLeave(passes) && Working(passes) && passes != []
    ensures |passes| + |ToMove(passes[|passes| - 1].after, StuckAt(passes))| <= |Legs(passes[0].listed)| +
      Retries(passes)
  {
    var n := |passes| - 1;
    var less := passes[..n];
    OnePass(passes);
    if n == 0 {
      assert less == [] && ToMove(passes[0].listed, {}) == Legs(passes[0].listed);
    } else {
      PassesAreBounded(less);
      SubsetSize(ToMove(passes[n].listed, StuckAt(less)), ToMove(less[n - 1].after, StuckAt(less)));
    }
  }

  /** Passes that found their leg in use. */
  ghost function Busies(passes: seq<Pass>): nat {
    if passes == [] then 0 else
    var n := |passes| - 1;
    Busies(passes[..n]) + if Pick(passes[n].listed, StuckAt(passes[..n])).Some? && passes[n].move.Busy? then 1 else 0
  }

  lemma {:induction false} AloneOnlyBusyLegsAreRetried(start: Pool, who: Mover, drive: set<Slot>, passes: seq<Pass>)
    requires AllTrue(start, who, drive, passes)
    ensures Retries(passes) == Busies(passes)
  {
    if passes != [] {
      AloneOnlyBusyLegsAreRetried(start, who, drive, passes[..|passes| - 1]);
    }
  }

  /** A drain that alone moves legs makes no more passes than there were legs, and passes that found
      one in use. */
  lemma ADrainIsBounded(start: Pool, who: Mover, drive: set<Slot>, passes: seq<Pass>)
    requires AllTrue(start, who, drive, passes) && Working(passes)
    ensures |passes| <= |start.live.Values * drive| + Busies(passes)
  {
    if passes != [] {
      AloneTheyOnlyLeave(start, who, drive, passes);
      AloneOnlyBusyLegsAreRetried(start, who, drive, passes);
      PassesAreBounded(passes);
      FirstIsTrue(start, who, drive, passes);
    }
  }

  lemma {:induction false} FirstIsTrue(start: Pool, who: Mover, drive: set<Slot>, passes: seq<Pass>)
    requires AllTrue(start, who, drive, passes) && passes != []
    ensures Lists(start, drive, passes[0].listed)
  {
    if |passes| > 1 {
      FirstIsTrue(start, who, drive, passes[..|passes| - 1]);
    } else {
      assert passes[..0] == [];
    }
  }

  // ---------------------------------------------------------------- what is given up

  ghost function MovedIn(passes: seq<Pass>): nat {
    if passes == [] then 0 else
    var n := |passes| - 1;
    MovedIn(passes[..n]) + if Pick(passes[n].listed, StuckAt(passes[..n])).Some? && passes[n].move.Moved? then 1 else 0
  }

  ghost function FailedIn(passes: seq<Pass>): nat {
    if passes == [] then 0 else
    var n := |passes| - 1;
    FailedIn(passes[..n]) +
      if Pick(passes[n].listed, StuckAt(passes[..n])).Some? && passes[n].move.Failed? then 1 else 0
  }

  /** The leg tried in a pass. */
  ghost function Tried(passes: seq<Pass>, k: nat): Option<Leg>
    requires k < |passes|
  {
    Pick(passes[k].listed, StuckAt(passes[..k]))
  }

  lemma {:induction false} StuckStays(passes: seq<Pass>, k: nat, j: nat)
    requires k <= j <= |passes|
    ensures StuckAt(passes[..k]) <= StuckAt(passes[..j])
  {
    if k < j {
      StuckStays(passes, k, j - 1);
      assert passes[..j][..j - 1] == passes[..j - 1];
    }
  }

  /** The first of an extent's legs on a slab. */
  function LegOn(legs: seq<Leg>, slab: set<Slot>): (r: Option<Leg>)
    ensures r.Some? ==> r.value in legs && r.value in slab
    ensures r.None? ==> forall l <- legs :: l !in slab
  {
    if legs == [] then None else if legs[0] in slab then Some(legs[0]) else LegOn(legs[1..], slab)
  }

  /** A pass tried a leg, its move failed, and the map then says which leg the extent has there. */
  ghost predicate FailedAt(passes: seq<Pass>, k: nat, l: Leg, m: map<Key, Slot>, e: Extent, slab: set<Slot>) {
    k < |passes| && Tried(passes, k) == Some(l) && passes[k].move == Failed(LegOn(RecordOf(m, e), slab))
  }

  lemma AfterPass(passes: seq<Pass>, k: nat)
    requires k < |passes|
    ensures StuckAt(passes[..k + 1]) == StuckAfter(passes[k], StuckAt(passes[..k]))
    ensures MovedIn(passes[..k + 1]) == MovedIn(passes[..k]) + if Tried(passes, k).Some? &&
      passes[k].move.Moved? then 1 else 0
    ensures FailedIn(passes[..k + 1]) == FailedIn(passes[..k]) + if Tried(passes, k).Some? &&
      passes[k].move.Failed? then 1 else 0
  {
    assert passes[..k + 1][..k] == passes[..k];
  }

  /** A leg whose move failed is tried again exactly when the map no longer has it as its extent's leg
      on that slab: a drain does not end while such a leg is listed. One that the map has there still
      is never tried again. */
  lemma TriedAgainIff(passes: seq<Pass>, k: nat, l: Leg, m: map<Key, Slot>, e: Extent, slab: set<Slot>)
    requires FailedAt(passes, k, l, m, e, slab)
    ensures l !in StuckAt(passes[..k + 1]) <==> LegOn(RecordOf(m, e), slab) != Some(l)
    ensures LegOn(RecordOf(m, e), slab) != Some(l) ==>
      forall listed: seq<Leg> :: l in listed ==> Pick(listed, StuckAt(passes[..k + 1])).Some?
    ensures LegOn(RecordOf(m, e), slab) == Some(l) ==> forall j :: k < j < |passes| ==> Tried(passes, j) != Some(l)
  {
    AfterPass(passes, k);
    if LegOn(RecordOf(m, e), slab) == Some(l) {
      forall j | k < j < |passes|
        ensures Tried(passes, j) != Some(l)
      {
        StuckStays(passes, k + 1, j);
      }
    }
  }

  /** A leg that changed while the drain waited for its fence, so that its extent has another there or
      none, counts as failed; it is not given up, and nothing is when the extent has none there. */
  lemma AChangedLegCountsAsFailed(passes: seq<Pass>, k: nat, l: Leg, m: map<Key, Slot>, e: Extent, slab: set<Slot>)
    requires FailedAt(passes, k, l, m, e, slab) && LegOn(RecordOf(m, e), slab) != Some(l)
    ensures FailedIn(passes[..k + 1]) == FailedIn(passes[..k]) + 1 && MovedIn(passes[..k + 1]) == MovedIn(passes[..k])
    ensures l !in StuckAt(passes[..k + 1])
    ensures (forall s <- RecordOf(m, e) :: s !in slab) ==>
      StuckAt(passes[..k + 1]) == StuckAt(passes[..k]) && Retried(passes[k], StuckAt(passes[..k]))
  {
    AfterPass(passes, k);
  }

  /** A drain that alone moves legs never tries one again whose move failed. */
  lemma AloneAFailureIsGivenUp(start: Pool, who: Mover, drive: set<Slot>, passes: seq<Pass>, k: nat, l: Leg)
    requires AllTrue(start, who, drive, passes) && k < |passes| && Tried(passes, k) == Some(l) && passes[k].move.Failed?
    ensures l in StuckAt(passes[..k + 1]) && forall j :: k < j < |passes| ==> Tried(passes, j) != Some(l)
  {
    TrueBefore(start, who, drive, passes, k);
    AfterPass(passes, k);
    forall j | k < j < |passes|
      ensures Tried(passes, j) != Some(l)
    {
      StuckStays(passes, k + 1, j);
    }
  }

  /** After a failure the extent has the leg picked on the slab, or none. */
  ghost predicate InPlace(passes: seq<Pass>) {
    forall k :: 0 <= k < |passes| && passes[k].move.Failed? && passes[k].move.found.Some? ==>
      Tried(passes, k) == passes[k].move.found
  }

  lemma {:induction false} StuckFailed(passes: seq<Pass>, l: Leg)
    requires l in StuckAt(passes)
    ensures exists k :: 0 <= k < |passes| && passes[k].move == Failed(Some(l)) && Tried(passes, k).Some?
  {
    var n := |passes| - 1;
    if l in StuckAt(passes[..n]) {
      StuckFailed(passes[..n], l);
      var k :| 0 <= k < n && passes[..n][k].move == Failed(Some(l)) && Tried(passes[..n], k).Some?;
      assert passes[..n][..k] == passes[..k];
      assert passes[k].move == Failed(Some(l)) && Tried(passes, k).Some?;
    } else {
      assert passes[n].move == Failed(Some(l)) && Tried(passes, n).Some?;
    }
  }

  /** Every leg a stuck drain leaves was found in its place after a move that failed; and it is the
      leg that move was of, where an extent gains no other leg on the drive. */
  lemma WhatIsLeftFailed(passes: seq<Pass>, last: Pass, l: Leg)
    requires Pick(last.listed, StuckAt(passes)).None? && Legs(last.after) <= Legs(last.listed) && l in last.after
    ensures exists k ::
      0 <= k < |passes| && passes[k].move == Failed(Some(l)) && (InPlace(passes) ==> Tried(passes, k) == Some(l))
  {
    assert l in Legs(last.after);
    StuckFailed(passes, l);
    var k :| 0 <= k < |passes| && passes[k].move == Failed(Some(l)) && Tried(passes, k).Some?;
    assert InPlace(passes) ==> Tried(passes, k) == Some(l);
  }

  // ---------------------------------------------------------------- the job

  /** A drain, its drive, and what it tells. */
  class Job {
    const store: Store
    const who: Mover
    const drive: set<Slot>
    var state: State
    var moved: nat
    var failed: nat
    var remaining: nat
    var stuck: set<Leg>
    var sincePersist: nat
    /** Sources no map names any more, not freed yet. */
    var owed: seq<Slot>
    /** Whether the drive's slabs take nothing new. */
    var quarantined: bool

    constructor (store: Store, who: Mover, drive: set<Slot>)
      ensures this.store == store && this.who == who && this.drive == drive
      ensures Fresh()
    {
      this.store, this.who, this.drive := store, who, drive;
      state, moved, failed, remaining, stuck := Running, 0, 0, 0, {};
      sincePersist, owed, quarantined := 0, [], false;
    }

    ghost predicate Fresh()
      reads this
    {
      state == Running && moved == failed == sincePersist == 0 && stuck == {} && owed == [] && !quarantined
    }

    ghost function Now(): Books
      reads this`owed, store
    {
      Books(store.pool, owed)
    }

    /** Make the map durable, then free what it no longer names, whatever came of it. */
    method PayUp(p: Pass)
      requires Formed(store.pool) && OwedBy(store.pool, who, owed)
      modifies this`owed, this`sincePersist, store
      ensures Now() == Settled(old(Now()), who, p) && sincePersist == 0
    {
      store.PersistThenRelease(who, owed, p.flushed, p.how);
      owed, sincePersist := [], 0;
    }

    /** Where the job stands after the first `k` passes. */
    ghost predicate At(start: Pool, passes: seq<Pass>, k: nat)
      requires AllTrue(start, who, drive, passes) && k <= |passes|
      reads this, store
    {
      && Now() == BooksAt(start, who, drive, passes, k) && sincePersist == |owed| && Working(passes[..k])
      && stuck == StuckAt(passes[..k]) && moved == MovedIn(passes[..k]) && failed == FailedIn(passes[..k])
    }

    /** Drain for as long as the passes are told, with what each is told true of the node. It ends
        when it is cancelled or no leg is left to try: empty when the maps list nothing on the drive
        any more, else stuck. A stuck drive stays quarantined; the others do not. */
    method Run(passes: seq<Pass>) returns (done: nat)
      requires Fresh() && AllTrue(store.pool, who, drive, passes)
      modifies this, store
      ensures done <= |passes| && (state == Running ==> done == |passes|) && (state != Running ==> done < |passes|)
      ensures Working(passes[..done])
      ensures
        var b := BooksAt(old(store.pool), who, drive, passes, done);
        Now() == (if state == Running then b else Settled(b, who, passes[done])) && sincePersist == |owed|
      ensures stuck == StuckAt(passes[..done]) && moved == MovedIn(passes[..done]) && failed == FailedIn(passes[..done])
      ensures state == Cancelled <==> done < |passes| && passes[done].cancelled
      ensures state in {Empty, Stuck} ==> Pick(passes[done].listed, stuck).None? && remaining == |passes[done].after|
      ensures state in {Empty, Stuck} ==> (state == Empty <==> passes[done].after == [])
      ensures quarantined <==> state in {Running, Stuck}
    {
      quarantined := true;
      done := Work(store.pool, passes);
      if done < |passes| {
        Stop(passes[done]);
      }
    }

    /** Move legs until it is cancelled or none is left to try. */
    method Work(ghost start: Pool, passes: seq<Pass>) returns (done: nat)
      requires state == Running && moved == failed == sincePersist == 0 && stuck == {} && owed == []
      requires start == store.pool && AllTrue(start, who, drive, passes)
      modifies this`stuck, this`moved, this`failed, this`remaining, this`sincePersist, this`owed, store
      ensures done <= |passes| && At(start, passes, done)
      ensures done < |passes| ==> passes[done].cancelled || Pick(passes[done].listed, stuck).None?
    {
      done := 0;
      assert passes[..0] == [];
      while done < |passes|
        invariant done <= |passes|
        invariant At(start, passes, done)
        decreases |passes| - done
      {
        if passes[done].cancelled || Pick(passes[done].listed, stuck).None? {
          return;
        }
        Advance(start, passes, done);
        done := done + 1;
      }
    }

    /** The end of a drain. Stuck or empty, cancelled or not, everything that did move is paid for. */
    method Stop(p: Pass)
      requires state == Running && quarantined && Formed(store.pool) && OwedBy(store.pool, who, owed)
      modifies this`state, this`remaining, this`quarantined, this`owed, this`sincePersist, store
      ensures Now() == Settled(old(Now()), who, p) && sincePersist == 0
      ensures state == if p.cancelled then Cancelled else if p.after == [] then Empty else Stuck
      ensures remaining == if p.cancelled then old(remaining) else |p.after|
      ensures quarantined <==> state == Stuck
    {
      if p.cancelled {
        PayUp(p);
        state, quarantined := Cancelled, false;
      } else {
        remaining := |p.after|;
        state := if remaining == 0 then Empty else Stuck;
        PayUp(p);
        if remaining == 0 {
          quarantined := false;
        }
      }
    }

    method Advance(ghost start: Pool, passes: seq<Pass>, k: nat)
      requires AllTrue(start, who, drive, passes) && k < |passes| && At(start, passes, k)
      requires !passes[k].cancelled && Pick(passes[k].listed, stuck).Some?
      modifies this`stuck, this`moved, this`failed, this`remaining, this`sincePersist, this`owed, store
      ensures At(start, passes, k + 1)
    {
      BooksMore(start, who, drive, passes, k);
      TakePass(passes[k]);
      CountsMore(passes, k);
    }

    /** The leg is moved, and a full batch paid for. */
    method MoveAndPay(p: Pass)
      requires Pick(p.listed, stuck).Some? && p.move.Moved? && Told(Now(), p, stuck) && Balanced(Now(), who)
      requires sincePersist == |owed|
      modifies this`owed, this`sincePersist, store
      ensures Now() == PassOn(old(Now()), who, p, stuck) && sincePersist == |owed|
    {
      var pick := Pick(p.listed, stuck).value;
      PassOnMoved(Now(), who, p, stuck);
      store.MoveLeg(who, pick, p.move.to);
      owed, sincePersist := owed + [pick], sincePersist + 1;
      if sincePersist >= BATCH {
        PayUp(p);
      }
    }

    /** One pass with a leg to move, and a persist when a batch is owed. */
    method TakePass(p: Pass)
      requires Pick(p.listed, stuck).Some? && Told(Now(), p, stuck) && Balanced(Now(), who) && sincePersist == |owed|
      modifies this`stuck, this`moved, this`failed, this`remaining, this`sincePersist, this`owed, store
      ensures Now() == PassOn(old(Now()), who, p, old(stuck)) && Balanced(Now(), who) && sincePersist == |owed|
      ensures stuck == StuckAfter(p, old(stuck))
      ensures moved == old(moved) + (if p.move.Moved? then 1 else 0)
      ensures failed == old(failed) + (if p.move.Failed? then 1 else 0)
      ensures remaining == if p.move.Busy? then old(remaining) else |p.after|
    {
      PassOnIs(Now(), who, p, stuck);
      match p.move
      case Moved(_) =>
        MoveAndPay(p);
        moved, remaining := moved + 1, |p.after|;
      case Busy =>
      case Failed(found) =>
        if found.Some? {
          stuck := stuck + {found.value};
        }
        failed, remaining := failed + 1, |p.after|;
    }
  }

  lemma CountsMore(passes: seq<Pass>, k: nat)
    requires k < |passes| && Working(passes[..k]) && !passes[k].cancelled && Tried(passes, k).Some?
    ensures Working(passes[..k + 1]) && StuckAt(passes[..k + 1]) == StuckAfter(passes[k], StuckAt(passes[..k]))
    ensures MovedIn(passes[..k + 1]) == MovedIn(passes[..k]) + if passes[k].move.Moved? then 1 else 0
    ensures FailedIn(passes[..k + 1]) == FailedIn(passes[..k]) + if passes[k].move.Failed? then 1 else 0
  {
    AfterPass(passes, k);
    assert passes[..k + 1][..k] == passes[..k];
  }
}
