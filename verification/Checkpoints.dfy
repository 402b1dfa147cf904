/** The callers (src/rebuild.rs:445-479, src/drain.rs:137-151, src/placement/mod.rs:794-951): a leg
    moved and owed, and a checkpoint that makes the map durable and then pays. */
module Checkpoints {
  import opened Restart
  import opened Relocation
  import opened SlotTables
  import opened Records
  import opened FailedPersists

  ghost predicate Apart(owed: seq<Slot>) {
    forall i, j :: 0 <= i < j < |owed| ==> owed[i] != owed[j]
  }

  /** Sources a mover emptied: allocated still, and no map names them. */
  ghost predicate OwedBy(p: Pool, who: Mover, owed: seq<Slot>) {
    && who !in p.flights && Apart(owed)
    && (forall s <- owed :: s in p.debt && p.debt[s] == Owed(who) && s in p.mem && Unnamed(p.live, s))
  }

  ghost predicate AllDue(p: Pool, owed: seq<Slot>) {
    Apart(owed) && forall s <- owed :: s in p.debt && p.debt[s].Due? && Unnamed(p.live, s)
  }

  /** One leg moved and owed. */
  function Moved(p: Pool, who: Mover, from: Slot, to: Slot): Pool
    requires from in p.mem && from in p.content && from != to
  {
    Published(Copied(p, from, to), who, from)
  }

  /** Every volume reads what it did. */
  ghost predicate SameReads(p: Pool, q: Pool) {
    q.live.Keys == p.live.Keys &&
    forall k <- p.live :: p.live[k] in p.content && q.live[k] in q.content &&
      q.content[q.live[k]] == p.content[p.live[k]]
  }

  lemma SameReadsChain(p: Pool, q: Pool, r: Pool)
    requires SameReads(p, q) && SameReads(q, r)
    ensures SameReads(p, r)
  {
  }

  /** A leg that can be moved. */
  ghost predicate Movable(p: Pool, from: Slot, to: Slot) {
    Enabled(p, BeginMove(from, to)) && from !in p.debt
  }

  lemma MovedIs(p: Pool, who: Mover, from: Slot, to: Slot, owed: seq<Slot>)
    requires Formed(p) && Movable(p, from, to) && OwedBy(p, who, owed)
    ensures from in p.mem && from in p.content && from != to
    ensures
      var q := Moved(p, who, from, to);
      && Formed(q) && SameReads(p, q) && OwedBy(q, who, owed + [from]) && Unnamed(q.live, from)
      && q.mem.Keys == p.mem.Keys + {to} && q.live == Rewrite(p.live, from, to) && q.debt == p.debt[from := Owed(who)]
  {
    var q := Moved(p, who, from, to);
    var k :| k in p.live && p.live[k] == from;
    assert from !in owed && from in p.mem;
    forall s <- owed + [from]
      ensures s in q.debt && q.debt[s] == Owed(who) && s in q.mem && Unnamed(q.live, s)
    {
      assert s in owed || s == from;
    }
  }

  lemma MoveIsTwoSteps(p: Pool, who: Mover, from: Slot, to: Slot)
    requires Formed(p) && Enabled(p, BeginMove(from, to))
    ensures from in p.mem && from in p.content && from != to && Formed(Do(p, BeginMove(from, to)))
    ensures Enabled(Do(p, BeginMove(from, to)), Publish(who, from))
    ensures Do(Do(p, BeginMove(from, to)), Publish(who, from)) == Moved(p, who, from, to)
    ensures Inv(p) ==> Inv(Moved(p, who, from, to))
  {
    CopiedIsFormed(p, from, to);
    if Inv(p) {
      MoveKeeps(p, who, from, to);
    }
  }

  lemma CopiedIsFormed(p: Pool, from: Slot, to: Slot)
    requires Formed(p) && Enabled(p, BeginMove(from, to))
    ensures from in p.mem && from in p.content && from != to
    ensures var q := Copied(p, from, to); Formed(q) && q.moving[from] == to && !Unnamed(q.live, from)
  {
    var k :| k in p.live && p.live[k] == from;
  }

  lemma MoveKeeps(p: Pool, who: Mover, from: Slot, to: Slot)
    requires Inv(p) && Enabled(p, BeginMove(from, to)) && from in p.mem && from != to
    requires Enabled(Do(p, BeginMove(from, to)), Publish(who, from))
    ensures Inv(Do(Do(p, BeginMove(from, to)), Publish(who, from)))
  {
    Records.StepKeeps(p, BeginMove(from, to));
    Records.StepKeeps(Do(p, BeginMove(from, to)), Publish(who, from));
  }

  function Slots(owed: seq<Slot>): (r: set<Slot>)
    ensures forall s :: s in r <==> s in owed
  {
    set s | s in owed
  }

  /** The records taken, and the slabs flushed. */
  function Persisting(p: Pool, who: Mover, owed: seq<Slot>, flushed: bool): (q: Pool)
    requires Formed(p) && OwedBy(p, who, owed)
    ensures Formed(q) && who in q.flights && q.flights[who] == Flight(p.gen + 1, p.live, flushed)
    ensures forall s <- owed :: s in q.debt && q.debt[s] == Paying(who)
  {
    var b := Begun(p, who, Slots(owed));
    if flushed then Synced(b, who) else b
  }

  lemma PersistingKeeps(p: Pool, who: Mover, owed: seq<Slot>, flushed: bool)
    requires Inv(p) && OwedBy(p, who, owed)
    ensures Inv(Persisting(p, who, owed, flushed))
  {
    Records.StepKeeps(p, PersistBegin(who, Slots(owed)));
    if flushed {
      Records.StepKeeps(Begun(p, who, Slots(owed)), Sync(who));
    }
  }

  /** How a persist can end that nothing overtakes. */
  predicate CanEnd(p: Pool, flushed: bool, how: Ending) {
    Ends(Flight(p.gen + 1, p.live, flushed), p.last, how)
  }

  /** What is written now replaces each record on disk that a restart goes by and that names the slot. */
  ghost predicate Renamed(p: Pool, part: set<Extent>, s: Slot) {
    (forall k <- p.live :: k.e in part) || forall k <- p.disk :: !k.Own? && p.disk[k] == s ==> k.e in part
  }

  /** No persist under way relies on a record that a persist begun now would not write. */
  ghost predicate NoneRelies(p: Pool, how: Ending) {
    how.Wrote? ==> forall s <- p.debt :: p.debt[s].Paying? && p.debt[s].who in p.flights ==> Renamed(p, how.part, s)
  }

  /** No such record, nor one that may yet be written, names the slot. */
  ghost predicate OffRecord(p: Pool, how: Ending, s: Slot) {
    && (how.Wrote? ==> Renamed(p, how.part, s))
    && (how.Refused? ==> Unrecorded(p.disk, s) && NonePending(p, s))
  }

  ghost predicate NonePending(p: Pool, s: Slot) {
    forall w <- p.flights :: Pending(p, w) ==> Unrecorded(p.flights[w].records, s)
  }

  /** And if the slabs are not flushed now, it is not the newest on disk of an extent of one leg. */
  ghost predicate FreeNow(p: Pool, flushed: bool, how: Ending, s: Slot) {
    OffRecord(p, how, s) && (!flushed ==> Passed(p, s))
  }

  /** On disk its extent has a newer slot. */
  ghost predicate Passed(p: Pool, s: Slot) {
    s in p.table && Single(p.table[s].of) ==> NewerOnDisk(p, s)
  }

  ghost predicate SafeToFree(p: Pool, owed: seq<Slot>, flushed: bool, how: Ending) {
    NoneRelies(p, how) && forall s <- owed :: FreeNow(p, flushed, how, s)
  }

  /** Nobody but `who` is paying under `who`'s name. */
  lemma NoOtherPays(p: Pool, who: Mover, s: Slot)
    requires Debited(p) && who !in p.flights && s in p.debt
    ensures p.debt[s] != Paying(who)
  {
  }

  lemma CoversIff(p: Pool, who: Mover, owed: seq<Slot>, flushed: bool, how: Ending)
    requires Inv(p) && OwedBy(p, who, owed) && how.Wrote?
    ensures Covers(Persisting(p, who, owed, flushed), who, how.part) <==> NoneRelies(p, how)
  {
    var q := Persisting(p, who, owed, flushed);
    forall s <- p.debt
      ensures Older(q, who, s) <==> p.debt[s].Paying? && p.debt[s].who in p.flights
      ensures Replaced(q, q.flights[who], how.part, s) <==> Renamed(p, how.part, s)
    {
      OlderIff(p, who, owed, flushed, s);
    }
    assert q.debt.Keys == p.debt.Keys;
  }

  /** A persist begun now is newer than all others. */
  lemma OlderIff(p: Pool, who: Mover, owed: seq<Slot>, flushed: bool, s: Slot)
    requires Debited(p) && Generations(p) && Formed(p) && OwedBy(p, who, owed) && s in p.debt
    ensures s in Persisting(p, who, owed, flushed).debt
    ensures Older(Persisting(p, who, owed, flushed), who, s) <==> p.debt[s].Paying? && p.debt[s].who in p.flights
    ensures Persisting(p, who, owed, flushed).debt[s] == if s in owed then Paying(who) else p.debt[s]
  {
    PersistingIs(p, who, owed, flushed);
    NoOtherPays(p, who, s);
    var b := Persisting(p, who, owed, flushed);
    assert b.flights[who].gen == p.gen + 1;
    if s !in owed && p.debt[s].Paying? {
      assert b.flights[p.debt[s].who] == p.flights[p.debt[s].who];
    }
  }

  lemma PersistingIs(p: Pool, who: Mover, owed: seq<Slot>, flushed: bool)
    requires Formed(p) && OwedBy(p, who, owed)
    ensures
      var b := Persisting(p, who, owed, flushed);
      && b.disk == p.disk && b.last == p.last && b.mem == p.mem && b.live == p.live && b.debt.Keys == p.debt.Keys
      && b.flights.Keys == p.flights.Keys + {who} && b.moving == p.moving
      && (forall w <- p.flights :: b.flights[w] == p.flights[w])
      && (forall s <- p.debt :: b.debt[s] == if s in owed then Paying(who) else p.debt[s])
  {
  }

  lemma SamePending(p: Pool, b: Pool, who: Mover, s: Slot)
    requires b.last == p.last && b.flights.Keys == p.flights.Keys + {who} && who !in p.flights
    requires forall w <- p.flights :: b.flights[w] == p.flights[w]
    ensures NonePending(p, s) <==>
      forall w <- b.flights :: w != who && Pending(b, w) ==> Unrecorded(b.flights[w].records, s)
  {
    forall w
      ensures w in p.flights <==> w in b.flights && w != who
      ensures w in p.flights ==> (Pending(p, w) <==> Pending(b, w))
    {
    }
  }

  lemma PersistingPays(p: Pool, who: Mover, owed: seq<Slot>, flushed: bool, s: Slot)
    requires Inv(p) && OwedBy(p, who, owed) && s in owed
    ensures var b := Persisting(p, who, owed, flushed); Inv(b) && b.debt[s] == Paying(who) && Paid(b, s, who)
  {
    PersistingKeeps(p, who, owed, flushed);
  }

  lemma GoneIff(p: Pool, who: Mover, owed: seq<Slot>, flushed: bool, how: Ending, s: Slot)
    requires Inv(p) && OwedBy(p, who, owed) && CanEnd(p, flushed, how) && s in owed
    ensures Gone(End(Persisting(p, who, owed, flushed), who, how), s) <==> OffRecord(p, how, s)
  {
    PersistingPays(p, who, owed, flushed, s);
    PersistingIs(p, who, owed, flushed);
    GoneFrom(p, Persisting(p, who, owed, flushed), who, how, s);
  }

  lemma GoneFrom(p: Pool, b: Pool, who: Mover, how: Ending, s: Slot)
    requires Formed(b) && Generations(b) && Enabled(b, PersistEnd(who, how)) && Paid(b, s, who) && who !in p.flights
    requires b.disk == p.disk && b.last == p.last && b.flights.Keys == p.flights.Keys + {who}
    requires b.flights[who].records == p.live && forall w <- p.flights :: b.flights[w] == p.flights[w]
    ensures Gone(End(b, who, how), s) <==> OffRecord(p, how, s)
  {
    GoneAfterIff(b, who, how, s);
    SamePending(p, b, who, s);
  }

  /** A persist whose answer is not looked at, and the slots freed after it. */
  function PaidOff(p: Pool, who: Mover, owed: seq<Slot>, flushed: bool, how: Ending): Pool
    requires Formed(p) && OwedBy(p, who, owed)
  {
    var e := EndUnchecked(Persisting(p, who, owed, flushed), who, how);
    Freed(e, owed)
  }

  lemma PaidOffIs(p: Pool, who: Mover, owed: seq<Slot>, flushed: bool, how: Ending)
    requires Formed(p) && OwedBy(p, who, owed)
    ensures
      var q := PaidOff(p, who, owed, flushed, how);
      && Formed(q) && q.live == p.live && q.content == p.content && q.mem == p.mem - Slots(owed)
      && OwedBy(q, who, []) && q.moving == p.moving && q.debt.Keys == p.debt.Keys - Slots(owed)
  {
    var b := Persisting(p, who, owed, flushed);
    var e := EndUnchecked(b, who, how);
    assert b.debt.Keys == p.debt.Keys && e.debt.Keys == b.debt.Keys;
  }

  function Freed(p: Pool, owed: seq<Slot>): Pool {
    p.(mem := p.mem - Slots(owed), debt := p.debt - Slots(owed))
  }

  /** Slots nothing needs are freed. */
  ghost predicate NeededByNone(e: Pool, s: Slot) {
    && Unnamed(e.live, s) && Gone(e, s) && Passed(e, s)
    && forall from <- e.moving :: from != s && e.moving[from] != s
  }

  lemma FreedTables(e: Pool, owed: seq<Slot>)
    requires Tables(e) && forall s <- owed :: NeededByNone(e, s)
    ensures Tables(Freed(e, owed))
  {
    FreedMoving(e, owed);
    FreedIsNoneNew(e, owed);
    NoneNewOrdered(e, Freed(e, owed));
    FreedOutlived(e, owed);
  }

  lemma FreedIsNoneNew(e: Pool, owed: seq<Slot>)
    requires Agree(e) && forall s <- owed :: NeededByNone(e, s)
    ensures NoneNew(e, Freed(e, owed)) && Agree(Freed(e, owed))
  {
  }

  lemma FreedMoving(e: Pool, owed: seq<Slot>)
    requires Copies(e) && Debited(e) && forall s <- owed :: NeededByNone(e, s)
    ensures Copies(Freed(e, owed)) && Debited(Freed(e, owed))
  {
    var q := Freed(e, owed);
    forall from <- q.moving
      ensures Copy(q, from, q.moving[from])
    {
      assert Copy(e, from, e.moving[from]);
    }
  }

  lemma FreedOutlived(e: Pool, owed: seq<Slot>)
    requires Agree(e) && Outlived(e) && forall s <- owed :: NeededByNone(e, s)
    ensures Outlived(Freed(e, owed))
  {
    var q := Freed(e, owed);
    forall s | Doomed(q, s) && Single(At(q, s).of)
      ensures NewerOnDisk(q, s)
    {
      assert At(q, s).of == At(e, s).of && At(q, s).gen == At(e, s).gen;
      if s in owed {
        assert Passed(e, s);
      } else {
        assert Doomed(e, s);
      }
    }
  }

  lemma FreedRecords(e: Pool, owed: seq<Slot>)
    requires Kept(e) && forall s <- owed :: NeededByNone(e, s)
    ensures Kept(Freed(e, owed))
  {
    var q := Freed(e, owed);
    assert forall s :: Gone(e, s) ==> Gone(q, s);
    forall s <- q.debt | q.debt[s].Paying?
      ensures Paid(q, s, q.debt[s].who)
    {
      assert Paid(e, s, q.debt[s].who);
    }
    forall k: Key, s | s !in owed && Rightful(e, e.mem, k, s)
      ensures Rightful(q, q.mem, k, s)
    {
    }
  }

  lemma FreedKeeps(e: Pool, owed: seq<Slot>)
    requires Inv(e) && forall s <- owed :: NeededByNone(e, s)
    ensures Inv(Freed(e, owed))
  {
    FreedTables(e, owed);
    FreedRecords(e, owed);
  }

  lemma DueIsNeededByNone(e: Pool, s: Slot)
    requires Inv(e) && s in e.debt && e.debt[s].Due?
    ensures NeededByNone(e, s)
  {
    assert Doomed(e, s);
    forall from <- e.moving
      ensures from != s && e.moving[from] != s
    {
      assert Copy(e, from, e.moving[from]);
    }
  }

  lemma ReleaseAll(e: Pool, owed: seq<Slot>)
    requires Inv(e) && AllDue(e, owed)
    ensures Inv(Freed(e, owed))
  {
    forall s <- owed
      ensures NeededByNone(e, s)
    {
      DueIsNeededByNone(e, s);
    }
    FreedKeeps(e, owed);
  }

  /** What is freed is what is owed, looked at or not. */
  lemma PaidOffIsFreed(p: Pool, who: Mover, owed: seq<Slot>, flushed: bool, how: Ending)
    requires Inv(p) && OwedBy(p, who, owed)
    ensures PaidOff(p, who, owed, flushed, how) == Freed(End(Persisting(p, who, owed, flushed), who, how), owed)
  {
    var b := Persisting(p, who, owed, flushed);
    PersistingIs(p, who, owed, flushed);
    forall s <- b.debt | b.debt[s] == Paying(who)
      ensures s in owed
    {
      NoOtherPays(p, who, s);
    }
    SettledOrForgotten(b, who, how, owed);
  }

  lemma SettledOrForgotten(b: Pool, who: Mover, how: Ending, owed: seq<Slot>)
    requires Formed(b) && who in b.flights && forall s <- b.debt :: b.debt[s] == Paying(who) ==> s in owed
    ensures Freed(EndUnchecked(b, who, how), owed) == Freed(End(b, who, how), owed)
  {
    assert EndUnchecked(b, who, how).debt - Slots(owed) == End(b, who, how).debt - Slots(owed);
  }

  lemma OwedIsNeededByNone(p: Pool, who: Mover, owed: seq<Slot>, flushed: bool, how: Ending, s: Slot)
    requires Inv(p) && OwedBy(p, who, owed) && CanEnd(p, flushed, how) && s in owed && FreeNow(p, flushed, how, s)
    ensures NeededByNone(End(Persisting(p, who, owed, flushed), who, how), s)
  {
    var b := Persisting(p, who, owed, flushed);
    GoneIff(p, who, owed, flushed, how, s);
    PersistingKeeps(p, who, owed, flushed);
    assert b.debt[s] == Paying(who);
    assert flushed ==> Doomed(b, s);
    forall from <- b.moving
      ensures from != s && b.moving[from] != s
    {
      assert Copy(b, from, b.moving[from]);
    }
  }

  /** A drain's persist keeps the invariant exactly when what it frees is safe to free. */
  lemma PaidOffIff(p: Pool, who: Mover, owed: seq<Slot>, flushed: bool, how: Ending)
    requires Inv(p) && OwedBy(p, who, owed) && CanEnd(p, flushed, how)
    ensures Inv(PaidOff(p, who, owed, flushed, how)) <==> SafeToFree(p, owed, flushed, how)
  {
    var e := End(Persisting(p, who, owed, flushed), who, how);
    PaidOffIsFreed(p, who, owed, flushed, how);
    CheckedEnd(p, who, owed, flushed, how);
    if SafeToFree(p, owed, flushed, how) {
      forall s <- owed
        ensures NeededByNone(e, s)
      {
        OwedIsNeededByNone(p, who, owed, flushed, how, s);
      }
      FreedKeeps(e, owed);
    } else if !NoneRelies(p, how) {
      UncoveredFreed(p, who, owed, flushed, how);
    } else {
      var s :| s in owed && !FreeNow(p, flushed, how, s);
      GoneIff(p, who, owed, flushed, how, s);
      FreedButNeeded(p, who, owed, flushed, how, s);
    }
  }

  lemma UncoveredFreed(p: Pool, who: Mover, owed: seq<Slot>, flushed: bool, how: Ending)
    requires Inv(p) && OwedBy(p, who, owed) && CanEnd(p, flushed, how) && !NoneRelies(p, how)
    ensures !Debts(Freed(End(Persisting(p, who, owed, flushed), who, how), owed))
  {
    var b := Persisting(p, who, owed, flushed);
    var e := End(b, who, how);
    PersistingKeeps(p, who, owed, flushed);
    CoversIff(p, who, owed, flushed, how);
    var s :| s in b.debt && Older(b, who, s) && !Replaced(b, b.flights[who], how.part, s);
    EndIsEnded(b, who, how);
    UncoveredBreaks(b, who, how, e, s);
    StillUnpaid(e, owed, s, b.debt[s].who);
  }

  lemma StillUnpaid(e: Pool, owed: seq<Slot>, s: Slot, w: Mover)
    requires s in e.debt && e.debt[s] == Paying(w) && s !in owed && !Paid(e, s, w)
    ensures !Debts(Freed(e, owed))
  {
    Unpaid(Freed(e, owed), s, w);
  }

  lemma FreedButNeeded(p: Pool, who: Mover, owed: seq<Slot>, flushed: bool, how: Ending, s: Slot)
    requires Inv(p) && OwedBy(p, who, owed) && CanEnd(p, flushed, how) && s in owed
    requires var e := End(Persisting(p, who, owed, flushed), who, how); !Gone(e, s) || (!flushed && !Passed(p, s))
    ensures !Inv(Freed(End(Persisting(p, who, owed, flushed), who, how), owed))
  {
    var e := End(Persisting(p, who, owed, flushed), who, how);
    if !Gone(e, s) {
      FreedButNamed(e, s, Freed(e, owed));
    } else {
      FreedButNewest(e, s, Freed(e, owed));
    }
  }

  lemma FreedButNamed(e: Pool, s: Slot, q: Pool)
    requires !Gone(e, s) && s !in q.mem && q.disk == e.disk && q.flights == e.flights && q.last == e.last
    ensures !Maps(q)
  {
    if Unrecorded(e.disk, s) {
      var w :| w in e.flights && Pending(e, w) && !Unrecorded(e.flights[w].records, s);
      assert Pending(q, w) && !Named(q, q.mem, q.flights[w].records);
    }
  }

  lemma FreedButNewest(e: Pool, s: Slot, q: Pool)
    requires Agree(e) && !Passed(e, s) && s !in q.mem && q.table == e.table
    ensures !Outlived(q)
  {
    assert Doomed(q, s) && !NewerOnDisk(q, s);
  }

  lemma OneReleased(was: Pool, now: Pool, owed: seq<Slot>, i: nat)
    requires i < |owed| && Formed(now) && AllDue(now, owed[i..]) && now == Freed(was, owed[..i])
    ensures
      var q := Released(now, owed[i]);
      Formed(q) && AllDue(q, owed[i + 1..]) && q == Freed(was, owed[..i + 1])
  {
    assert owed[i..][0] == owed[i] && owed[i..][1..] == owed[i + 1..];
    assert owed[..i + 1] == owed[..i] + [owed[i]];
  }

  class Store {
    var pool: Pool

    constructor (pool: Pool)
      ensures this.pool == pool
    {
      this.pool := pool;
    }

    method ReleaseSlots(owed: seq<Slot>)
      requires Formed(pool) && AllDue(pool, owed)
      modifies this
      ensures pool == Freed(old(pool), owed)
    {
      ghost var was := pool;
      for i := 0 to |owed|
        invariant Formed(pool) && AllDue(pool, owed[i..])
        invariant pool == Freed(was, owed[..i])
      {
        OneReleased(was, pool, owed, i);
        pool := Released(pool, owed[i]);
      }
      assert owed[..|owed|] == owed;
    }

    /** Take the records, flush the slabs. */
    method Persist(who: Mover, owed: seq<Slot>, flushed: bool)
      requires Formed(pool) && OwedBy(pool, who, owed)
      modifies this
      ensures pool == Persisting(old(pool), who, owed, flushed)
    {
      pool := Begun(pool, who, Slots(owed));
      if flushed {
        pool := Synced(pool, who);
      }
    }

    /** A rebuild's checkpoint: make the map durable, then free what it stopped naming. When the
        persist fails nothing is freed; part of the records, or all, may be on disk all the same,
        and the invariant is kept exactly when no persist under way relied on the rest. */
    method Checkpoint(who: Mover, owed: seq<Slot>, flushed: bool, how: Ending) returns (ok: bool)
      requires Inv(pool) && OwedBy(pool, who, owed) && CanEnd(pool, flushed, how)
      modifies this
      ensures ok == how.Ok() && (Inv(pool) <==> NoneRelies(old(pool), how)) && (ok ==> Inv(pool))
      ensures pool.live == old(pool).live && pool.content == old(pool).content
      ensures ok ==> pool.disk == pool.live && pool.mem == old(pool).mem - Slots(owed)
      ensures !ok ==> pool.mem == old(pool).mem
      ensures !ok ==> pool.disk == if how.Wrote? then Merged(old(pool).disk, pool.live, how.part) else old(pool).disk
    {
      CheckedEnd(pool, who, owed, flushed, how);
      CheckedEndIs(pool, who, owed, flushed, how);
      Persist(who, owed, flushed);
      ok := how.Ok();
      pool := End(pool, who, how);
      if ok {
        ReleaseAll(pool, owed);
        ReleaseSlots(owed);
      }
    }

    /** A drain's and a rebalance's: the answer is not looked at. */
    method PersistThenRelease(who: Mover, owed: seq<Slot>, flushed: bool, how: Ending)
      requires Formed(pool) && OwedBy(pool, who, owed)
      modifies this
      ensures pool == PaidOff(old(pool), who, owed, flushed, how)
    {
      Persist(who, owed, flushed);
      pool := EndUnchecked(pool, who, how);
      ReleaseSlots(owed);
    }

    /** Copy one leg with its slot fenced, publish it, and owe the source. */
    method MoveLeg(who: Mover, from: Slot, to: Slot)
      requires Formed(pool) && Enabled(pool, BeginMove(from, to))
      modifies this
      ensures from in old(pool).mem && from in old(pool).content && from != to
      ensures pool == Moved(old(pool), who, from, to) && (Inv(old(pool)) ==> Inv(pool))
    {
      MoveIsTwoSteps(pool, who, from, to);
      pool := Copied(pool, from, to);
      pool := Published(pool, who, from);
    }
  }

  lemma CheckedEnd(p: Pool, who: Mover, owed: seq<Slot>, flushed: bool, how: Ending)
    requires Inv(p) && OwedBy(p, who, owed) && CanEnd(p, flushed, how)
    ensures
      var q := End(Persisting(p, who, owed, flushed), who, how);
      (Inv(q) <==> NoneRelies(p, how)) && (how.Ok() ==> NoneRelies(p, how))
  {
    var b := Persisting(p, who, owed, flushed);
    PersistingKeeps(p, who, owed, flushed);
    if how.Wrote? {
      MarkedWrittenIff(b, who, how.part, how.ok);
      CoversIff(p, who, owed, flushed, how);
    } else {
      Records.StepKeeps(b, PersistEnd(who, how));
    }
  }

  lemma CheckedEndIs(p: Pool, who: Mover, owed: seq<Slot>, flushed: bool, how: Ending)
    requires Formed(p) && p.last <= p.gen && OwedBy(p, who, owed) && CanEnd(p, flushed, how)
    ensures
      var q := End(Persisting(p, who, owed, flushed), who, how);
      && q.live == p.live && q.content == p.content && q.mem == p.mem
      && q.disk == (if how.Wrote? then Merged(p.disk, p.live, how.part) else p.disk)
      && (how.Ok() ==> AllDue(q, owed) && q.disk == p.live)
  {
  }
}
