/** What a persist that fails does to the ones around it (src/volume/mod.rs:3750-3842), and what
    freeing without looking at its answer does (src/drain.rs:137-151, src/rebalance.rs:330-338):
    exactly when each is safe, and what a restart loses when it is not. */
module FailedPersists {
  import opened Restart
  import opened Relocation
  import opened SlotTables
  import opened Records
  import opened Recovery

  /** What does not depend on whether the answer is looked at. */
  ghost predicate Ended(p: Pool, who: Mover, how: Ending, q: Pool)
    requires who in p.flights && how.Wrote?
  {
    && Formed(q) && q.live == p.live && q.mem == p.mem && q.table == p.table && q.flights == p.flights - {who}
    && q.last == p.flights[who].gen && q.disk == Merged(p.disk, p.flights[who].records, how.part)
  }

  lemma EndIsEnded(p: Pool, who: Mover, how: Ending)
    requires Formed(p) && who in p.flights && how.Wrote?
    ensures Ended(p, who, how, End(p, who, how)) && Ended(p, who, how, EndUnchecked(p, who, how))
  {
  }

  /** A persist that was marked written keeps the invariant exactly when what it wrote covers the
      older ones still under way. */
  lemma MarkedWrittenIff(p: Pool, who: Mover, part: set<Extent>, ok: bool)
    requires Inv(p) && Enabled(p, PersistEnd(who, Wrote(part, ok)))
    ensures Inv(End(p, who, Wrote(part, ok))) <==> Covers(p, who, part)
  {
    var how := Wrote(part, ok);
    if Covers(p, who, part) {
      Records.StepKeeps(p, PersistEnd(who, how));
    } else {
      var s :| s in p.debt && Older(p, who, s) && !Replaced(p, p.flights[who], part, s);
      EndIsEnded(p, who, how);
      UncoveredBreaks(p, who, how, End(p, who, how), s);
      Unpaid(End(p, who, how), s, p.debt[s].who);
    }
  }

  lemma UncoveredBreaks(p: Pool, who: Mover, how: Ending, q: Pool, s: Slot)
    requires Inv(p) && Enabled(p, PersistEnd(who, how)) && how.Wrote?
    requires Older(p, who, s) && !Replaced(p, p.flights[who], how.part, s)
    requires Ended(p, who, how, q)
    ensures !Paid(q, s, p.debt[s].who)
  {
    assert Paid(p, s, p.debt[s].who);
    MergedUnrecorded(p, p.flights[who], how.part, s);
  }

  lemma Unpaid(q: Pool, s: Slot, w: Mover)
    requires s in q.debt && q.debt[s] == Paying(w) && !Paid(q, s, w)
    ensures !Debts(q)
  {
  }

  /** One that wrote everything always does. */
  lemma AWholeWriteCovers(p: Pool, who: Mover, part: set<Extent>)
    requires who in p.flights && Whole(p.flights[who], part)
    ensures Covers(p, who, part)
  {
  }

  // ---------------------------------------------------------------- the drain's unchecked persist

  /** The end of a persist whose answer is not looked at: the slots are due either way. */
  function EndUnchecked(p: Pool, who: Mover, how: Ending): Pool
    requires Formed(p) && who in p.flights
  {
    End(p, who, how).(debt := Settle(p.debt, Paying(who), Due(who)))
  }

  /** A restart has no need of the slot of an extent of one leg: a newer one is on disk. */
  ghost predicate Replaceable(p: Pool, s: Slot) {
    s in p.mem && Single(p.mem[s].of) ==> NewerOnDisk(p, s)
  }

  /** Before it ends: neither what stays on disk, nor the records of another persist that may yet
      be written, name the slot, and a newer one is on disk where that is what a restart takes. */
  ghost predicate Free(p: Pool, who: Mover, how: Ending, s: Slot)
    requires who in p.flights
  {
    && (how.Wrote? ==> Replaced(p, p.flights[who], how.part, s))
    && (how.Refused? ==>
          && Unrecorded(p.disk, s) && Replaceable(p, s)
          && forall w <- p.flights :: w != who && Pending(p, w) ==> Unrecorded(p.flights[w].records, s))
  }

  /** So it is of every slot the persist is paying for, and of every slot an older one is. */
  ghost predicate SafeUnchecked(p: Pool, who: Mover, how: Ending)
    requires who in p.flights
  {
    && (how.Wrote? ==> Covers(p, who, how.part))
    && (forall s <- p.debt :: p.debt[s] == Paying(who) ==> Free(p, who, how, s))
  }

  lemma PaidIsGoneIff(p: Pool, who: Mover, how: Ending, s: Slot)
    requires Inv(p) && Enabled(p, PersistEnd(who, how)) && s in p.debt && p.debt[s] == Paying(who)
    ensures Gone(End(p, who, how), s) && Replaceable(End(p, who, how), s) <==> Free(p, who, how, s)
  {
    assert Paid(p, s, who);
    assert p.flights[who].synced ==> Doomed(p, s);
    assert Replaceable(End(p, who, how), s) <==> Replaceable(p, s);
    GoneAfterIff(p, who, how, s);
  }

  lemma GoneAfterIff(p: Pool, who: Mover, how: Ending, s: Slot)
    requires Formed(p) && Generations(p) && Enabled(p, PersistEnd(who, how)) && Paid(p, s, who)
    ensures how.Wrote? ==> (Gone(End(p, who, how), s) <==> Replaced(p, p.flights[who], how.part, s))
    ensures how.Skipped? ==> Gone(End(p, who, how), s)
    ensures how.Refused? ==> (Gone(End(p, who, how), s) <==>
      Unrecorded(p.disk, s) && forall w <- p.flights ::
        w != who && Pending(p, w) ==> Unrecorded(p.flights[w].records, s))
  {
    var q := End(p, who, how);
    if how.Wrote? {
      MergedUnrecorded(p, p.flights[who], how.part, s);
    } else {
      assert forall w <- p.flights :: w != who ==> w in q.flights && q.flights[w] == p.flights[w];
    }
  }

  lemma DueAgainTables(e: Pool, debt: map<Slot, Debt>)
    requires Tables(e)
    requires forall s <- debt :: s in e.mem && Unnamed(e.live, s)
    requires forall s <- debt :: (s in e.debt && debt[s] == e.debt[s]) || (debt[s].Due? && Replaceable(e, s))
    requires forall s <- e.moving :: e.moving[s] !in debt && s !in debt
    ensures Tables(e.(debt := debt))
  {
    var q := e.(debt := debt);
    assert NoneNew(e, q);
    NoneNewOrdered(e, q);
    forall from <- q.moving
      ensures Copy(q, from, q.moving[from])
    {
      assert Copy(e, from, e.moving[from]);
    }
    forall s | Doomed(q, s) && Single(At(q, s).of)
      ensures NewerOnDisk(q, s)
    {
      assert At(q, s) == At(e, s);
      assert Doomed(e, s) || Replaceable(e, s);
    }
  }

  /** Slots made due again are safe to free where no record names them, and newer ones are on disk. */
  lemma DueAgain(e: Pool, debt: map<Slot, Debt>)
    requires Inv(e)
    requires forall s <- debt :: s in e.mem && Unnamed(e.live, s)
    requires forall s <- debt ::
      (s in e.debt && debt[s] == e.debt[s]) || (debt[s].Due? && Gone(e, s) && Replaceable(e, s))
    requires forall s <- e.moving :: e.moving[s] !in debt && s !in debt
    ensures Inv(e.(debt := debt))
  {
    DueAgainTables(e, debt);
    DueAgainRecords(e, debt);
  }

  lemma DueAgainRecords(e: Pool, debt: map<Slot, Debt>)
    requires Kept(e)
    requires forall s <- debt :: (s in e.debt && debt[s] == e.debt[s]) || (debt[s].Due? && Gone(e, s))
    ensures Kept(e.(debt := debt))
  {
    var q := e.(debt := debt);
    assert forall s :: Gone(e, s) ==> Gone(q, s);
    forall s <- q.debt | q.debt[s].Paying?
      ensures Paid(q, s, q.debt[s].who)
    {
      assert Paid(e, s, q.debt[s].who);
    }
    assert forall k: Key, t, s :: Rightful(e, t, k, s) == Rightful(q, t, k, s);
  }

  /** Ignoring the answer is safe exactly then: always when all records were written, even if the
      persist said otherwise; and when none were, exactly when no record a restart goes by names
      what it was paying for, and newer slots of the extents of one leg are on disk. */
  lemma UncheckedIff(p: Pool, who: Mover, how: Ending)
    requires Inv(p) && Enabled(p, PersistEnd(who, how))
    ensures Inv(EndUnchecked(p, who, how)) <==> SafeUnchecked(p, who, how)
  {
    if SafeUnchecked(p, who, how) {
      UncheckedSafe(p, who, how);
    } else if how.Wrote? && !Covers(p, who, how.part) {
      var s :| s in p.debt && Older(p, who, s) && !Replaced(p, p.flights[who], how.part, s);
      EndIsEnded(p, who, how);
      UncoveredBreaks(p, who, how, EndUnchecked(p, who, how), s);
      Unpaid(EndUnchecked(p, who, how), s, p.debt[s].who);
    } else {
      UncheckedUnsafe(p, who, how);
    }
  }

  lemma UncheckedSafe(p: Pool, who: Mover, how: Ending)
    requires Inv(p) && Enabled(p, PersistEnd(who, how)) && SafeUnchecked(p, who, how)
    ensures Inv(EndUnchecked(p, who, how))
  {
    Records.StepKeeps(p, PersistEnd(who, how));
    forall s <- p.debt | p.debt[s] == Paying(who)
      ensures Gone(End(p, who, how), s) && Replaceable(End(p, who, how), s)
    {
      PaidIsGoneIff(p, who, how, s);
    }
    SettleIsSafe(p, who, how);
  }

  lemma SettleIsSafe(p: Pool, who: Mover, how: Ending)
    requires Formed(p) && Debited(p) && Copies(p) && who in p.flights && Inv(End(p, who, how))
    requires forall s <- p.debt :: p.debt[s] == Paying(who) ==>
      Gone(End(p, who, how), s) && Replaceable(End(p, who, how), s)
    ensures Inv(EndUnchecked(p, who, how))
  {
    forall from <- p.moving
      ensures from !in p.debt && p.moving[from] !in p.debt
    {
      assert Copy(p, from, p.moving[from]);
    }
    DueAgain(End(p, who, how), Settle(p.debt, Paying(who), Due(who)));
  }

  lemma UncheckedUnsafe(p: Pool, who: Mover, how: Ending)
    requires Inv(p) && Enabled(p, PersistEnd(who, how)) && !SafeUnchecked(p, who, how)
    requires how.Wrote? ==> Covers(p, who, how.part)
    ensures !Inv(EndUnchecked(p, who, how))
  {
    var s :| s in p.debt && p.debt[s] == Paying(who) && !Free(p, who, how, s);
    PaidIsGoneIff(p, who, how, s);
    DueTooSoon(EndUnchecked(p, who, how), End(p, who, how), s);
  }

  /** A slot due while a restart may need it. */
  lemma DueTooSoon(q: Pool, e: Pool, s: Slot)
    requires q == e.(debt := q.debt) && s in q.debt && q.debt[s].Due?
    requires !Gone(e, s) || !Replaceable(e, s)
    ensures !Inv(q)
  {
    if !Gone(e, s) {
      assert !Gone(q, s);
    } else {
      assert Doomed(q, s) && !NewerOnDisk(q, s);
    }
  }
}
