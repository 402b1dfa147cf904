/** What the records keep through every step: a restart goes by what is on record of a mirror's legs
    and of what a volume shares with its ancestors (src/volume/mod.rs:4492-4625), so those records
    name slots that are still theirs, and hold what was saved. */
module Records {
  import opened Restart
  import opened Relocation
  import opened SlotTables

  /** Records that may still become the ones on disk. */
  ghost predicate Pending(p: Pool, who: Mover) {
    who in p.flights && p.flights[who].gen > p.last
  }

  /** Maps name slots that are theirs; on disk too where the slabs were flushed since. */
  ghost predicate Maps(p: Pool) {
    && Named(p, p.mem, p.live) && Named(p, p.mem, p.disk) && Recorded(p)
    && (forall who <- p.flights :: Pending(p, who) ==> Named(p, p.mem, p.flights[who].records))
    && (forall who <- p.flights :: Pending(p, who) && p.flights[who].synced ==>
          Named(p, p.table, p.flights[who].records))
  }

  /** And hold what was saved. */
  ghost predicate Saved(p: Pool) {
    && p.disk.Keys == p.saved.Keys
    && (forall k <- p.disk :: !k.Own? ==> p.disk[k] in p.content && p.content[p.disk[k]] == p.saved[k])
  }

  /** No record that a restart could still go by names the slot. */
  ghost predicate Gone(p: Pool, s: Slot) {
    Unrecorded(p.disk, s) && forall who <- p.flights :: Pending(p, who) ==> Unrecorded(p.flights[who].records, s)
  }

  ghost predicate CopiesGone(p: Pool) {
    forall from <- p.moving :: Gone(p, p.moving[from])
  }

  ghost predicate Paid(p: Pool, s: Slot, who: Mover) {
    && who in p.flights
    && (forall w <- p.flights :: p.flights[w].gen >= p.flights[who].gen ==> Unrecorded(p.flights[w].records, s))
    && (p.last >= p.flights[who].gen ==> Unrecorded(p.disk, s))
  }

  ghost predicate Debts(p: Pool) {
    forall s <- p.debt :: (p.debt[s].Paying? ==> Paid(p, s, p.debt[s].who)) && (p.debt[s].Due? ==> Gone(p, s))
  }

  ghost predicate Generations(p: Pool) {
    && p.last <= p.gen
    && (forall who <- p.flights :: p.flights[who].gen <= p.gen && p.flights[who].gen != p.last)
    && (forall a <- p.flights, b <- p.flights :: a != b ==> p.flights[a].gen != p.flights[b].gen)
  }

  ghost predicate Kept(p: Pool) {
    Maps(p) && Saved(p) && CopiesGone(p) && Debts(p) && Generations(p)
  }

  ghost predicate Inv(p: Pool) {
    Tables(p) && Kept(p)
  }

  // ---------------------------------------------------------------- maps and records

  ghost predicate SameRecords(p: Pool, q: Pool) {
    q.disk == p.disk && q.table == p.table && q.flights == p.flights && q.last == p.last
  }

  /** Slots are taken, none changes hands, and no volume loses an ancestor. */
  ghost predicate Grows(p: Pool, q: Pool) {
    && (forall s <- p.mem :: s in q.mem && q.mem[s].of == p.mem[s].of)
    && (forall v :: Kin(p.kin, v) <= Kin(q.kin, v))
  }

  lemma NamedGrows(p: Pool, q: Pool, m: map<Key, Slot>)
    requires Grows(p, q)
    ensures Named(p, p.mem, m) ==> Named(q, q.mem, m)
    ensures Named(p, p.table, m) ==> Named(q, p.table, m)
  {
    forall k <- m | !k.Own?
      ensures Rightful(p, p.mem, k, m[k]) ==> Rightful(q, q.mem, k, m[k])
      ensures Rightful(p, p.table, k, m[k]) ==> Rightful(q, p.table, k, m[k])
    {
      assert Kin(p.kin, k.e.volume) <= Kin(q.kin, k.e.volume);
    }
  }

  lemma MapsGrow(p: Pool, q: Pool)
    requires Maps(p) && SameRecords(p, q) && Grows(p, q) && Named(q, q.mem, q.live)
    ensures Maps(q)
  {
    NamedGrows(p, q, p.disk);
    forall who <- p.flights | Pending(p, who)
      ensures Named(q, q.mem, p.flights[who].records)
      ensures p.flights[who].synced ==> Named(q, q.table, p.flights[who].records)
    {
      NamedGrows(p, q, p.flights[who].records);
    }
  }

  lemma SavedKept(p: Pool, q: Pool)
    requires Saved(p) && SameRecords(p, q) && q.saved == p.saved
    requires forall s <- p.content :: s in q.content && (Unrecorded(p.disk, s) || q.content[s] == p.content[s])
    ensures Saved(q)
  {
  }

  lemma CreateMaps(p: Pool, key: Key, slot: Slot, data: Data, since: nat)
    requires Formed(p) && Maps(p) && Saved(p) && Enabled(p, Create(key, slot, data, since))
    ensures Maps(Do(p, Create(key, slot, data, since))) && Saved(Do(p, Create(key, slot, data, since)))
  {
    var q := Do(p, Create(key, slot, data, since));
    NamedGrows(p, q, p.live);
    MapsGrow(p, q);
    assert Unrecorded(p.disk, slot);
    SavedKept(p, q);
  }

  lemma CloneMaps(p: Pool, of: Key, key: Key)
    requires Inv(p) && Enabled(p, Clone(of, key))
    ensures Maps(Do(p, Clone(of, key))) && Saved(Do(p, Clone(of, key)))
  {
    var q := Do(p, Clone(of, key));
    CloneGrows(p, of, key);
    NamedGrows(p, q, p.live);
    CloneRightful(p, of, key);
    MapsGrow(p, q);
    SavedKept(p, q);
  }

  lemma CloneGrows(p: Pool, of: Key, key: Key)
    requires Clonable(p, of, key)
    ensures Grows(p, Cloned(p, of, key)) && SameRecords(p, Cloned(p, of, key))
  {
    var q := Cloned(p, of, key);
    forall v
      ensures Kin(p.kin, v) <= Kin(q.kin, v)
    {
    }
  }

  lemma CloneRightful(p: Pool, of: Key, key: Key)
    requires Tables(p) && Named(p, p.mem, p.live) && Clonable(p, of, key)
    ensures Rightful(Cloned(p, of, key), Cloned(p, of, key).mem, key, p.live[of])
  {
    if of.Own? {
      assert Mapped(p, of.e);
    }
    assert p.mem[p.live[of]].of != key.e;
  }

  lemma BeginMoveMaps(p: Pool, from: Slot, to: Slot)
    requires Formed(p) && Maps(p) && Saved(p) && Enabled(p, BeginMove(from, to))
    ensures Maps(Do(p, BeginMove(from, to))) && Saved(Do(p, BeginMove(from, to)))
  {
    var q := Do(p, BeginMove(from, to));
    NamedGrows(p, q, p.live);
    MapsGrow(p, q);
    assert Unrecorded(p.disk, to);
    SavedKept(p, q);
  }

  lemma PublishedGrows(p: Pool, who: Mover, from: Slot)
    requires Enabled(p, Publish(who, from))
    ensures Grows(p, Published(p, who, from)) && SameRecords(p, Published(p, who, from))
  {
  }

  lemma PublishedRightful(p: Pool, who: Mover, from: Slot)
    requires Copies(p) && Named(p, p.mem, p.live) && Enabled(p, Publish(who, from))
    ensures var q := Published(p, who, from); Named(q, q.mem, q.live)
  {
    var q := Published(p, who, from);
    assert Copy(p, from, p.moving[from]);
    forall k <- q.live | !k.Own?
      ensures Rightful(q, q.mem, k, q.live[k])
    {
      assert Rightful(p, p.mem, k, p.live[k]);
    }
  }

  lemma PublishMaps(p: Pool, who: Mover, from: Slot)
    requires Inv(p) && Enabled(p, Publish(who, from))
    ensures Maps(Do(p, Publish(who, from))) && Saved(Do(p, Publish(who, from)))
  {
    var q := Do(p, Publish(who, from));
    PublishedGrows(p, who, from);
    PublishedRightful(p, who, from);
    MapsGrow(p, q);
    SavedKept(p, q);
  }

  /** A slot that nothing names is given up. */
  lemma MapsShrink(p: Pool, q: Pool, s: Slot)
    requires Maps(p) && SameRecords(p, q) && q.mem == p.mem - {s} && q.live == p.live && q.kin == p.kin
    requires Unnamed(p.live, s) && Gone(p, s)
    ensures Maps(q)
  {
    forall k: Key, t | t != s && Rightful(p, p.mem, k, t)
      ensures Rightful(q, q.mem, k, t)
    {
    }
  }

  lemma GiveBackMaps(p: Pool, from: Slot)
    requires Inv(p) && Enabled(p, GiveBack(from))
    ensures Maps(Do(p, GiveBack(from))) && Saved(Do(p, GiveBack(from)))
  {
    assert Copy(p, from, p.moving[from]);
    MapsShrink(p, Do(p, GiveBack(from)), p.moving[from]);
  }

  lemma ReleaseMaps(p: Pool, slot: Slot)
    requires Inv(p) && Enabled(p, Release(slot))
    ensures Maps(Do(p, Release(slot))) && Saved(Do(p, Release(slot)))
  {
    assert Gone(p, slot);
    MapsShrink(p, Do(p, Release(slot)), slot);
  }

  lemma WriteMaps(p: Pool, key: Key, data: Data)
    requires Formed(p) && Maps(p) && Enabled(p, Write(key, data))
    ensures Maps(Do(p, Write(key, data)))
  {
    var q := Do(p, Write(key, data));
    assert q == p.(content := q.content, saved := q.saved);
    NamedGrows(p, q, p.live);
    MapsGrow(p, q);
  }

  lemma WriteSaved(p: Pool, key: Key, data: Data)
    requires Formed(p) && Saved(p) && Enabled(p, Write(key, data))
    ensures Saved(Do(p, Write(key, data)))
  {
  }

  lemma PersistBeginMaps(p: Pool, who: Mover, pay: set<Slot>)
    requires Inv(p) && Enabled(p, PersistBegin(who, pay))
    ensures Maps(Do(p, PersistBegin(who, pay))) && Saved(Do(p, PersistBegin(who, pay)))
  {
  }

  /** What is flushed is as in memory. */
  lemma NamedOnDisk(p: Pool, q: Pool, t: Table, m: map<Key, Slot>)
    requires Named(p, p.mem, m) && q.kin == p.kin
    requires forall k <- m :: !k.Own? ==> m[k] in t && (m[k] in p.mem ==> t[m[k]].of == p.mem[m[k]].of)
    ensures Named(q, t, m)
  {
  }

  lemma SyncMaps(p: Pool, who: Mover)
    requires Formed(p) && Agree(p) && Maps(p) && Saved(p) && CopiesGone(p) && Enabled(p, Sync(who))
    ensures Maps(Do(p, Sync(who))) && Saved(Do(p, Sync(who)))
  {
    var q := Do(p, Sync(who));
    NotCopying(p);
    NamedOnDisk(p, q, q.table, p.disk);
    forall w <- q.flights | Pending(q, w)
      ensures Named(q, q.mem, q.flights[w].records) && Named(q, q.table, q.flights[w].records)
    {
      assert Pending(p, w) && q.flights[w].records == p.flights[w].records;
      NamedOnDisk(p, q, q.table, p.flights[w].records);
    }
  }

  lemma NotCopying(p: Pool)
    requires CopiesGone(p)
    ensures forall s :: !Unrecorded(p.disk, s) ==> !Copying(p, s)
    ensures forall who, s :: Pending(p, who) && !Unrecorded(p.flights[who].records, s) ==> !Copying(p, s)
  {
  }

  lemma EnteredNamed(p: Pool, slot: Slot, m: map<Key, Slot>)
    requires Named(p, p.mem, m) && Named(p, p.table, m)
    ensures Named(p, Entered(p, slot), m)
  {
    forall k <- m | !k.Own?
      ensures Rightful(p, Entered(p, slot), k, m[k])
    {
      assert Rightful(p, p.mem, k, m[k]) && Rightful(p, p.table, k, m[k]);
    }
  }

  lemma TableEntryMaps(p: Pool, slot: Slot)
    requires Maps(p) && Saved(p)
    ensures Maps(p.(table := Entered(p, slot))) && Saved(p.(table := Entered(p, slot)))
  {
    var q := p.(table := Entered(p, slot));
    EnteredNamed(p, slot, p.disk);
    assert forall k: Key, t, s :: Rightful(p, t, k, s) == Rightful(q, t, k, s);
    forall who <- q.flights | Pending(q, who) && q.flights[who].synced
      ensures Named(q, q.table, q.flights[who].records)
    {
      assert Pending(p, who);
      EnteredNamed(p, slot, p.flights[who].records);
    }
  }

  lemma MergedNamed(p: Pool, t: Table, was: map<Key, Slot>, now: map<Key, Slot>, part: set<Extent>)
    requires Named(p, t, was) && Named(p, t, now)
    ensures Named(p, t, Merged(was, now, part))
  {
    var m := Merged(was, now, part);
    forall k <- m
      ensures (k in was && m[k] == was[k]) || (k in now && m[k] == now[k])
    {
    }
  }

  lemma PersistEndMaps(p: Pool, who: Mover, how: Ending)
    requires Formed(p) && Maps(p) && Generations(p) && Enabled(p, PersistEnd(who, how))
    ensures Maps(End(p, who, how))
  {
    var q := End(p, who, how);
    if how.Wrote? {
      MergedNamed(p, p.mem, p.disk, p.flights[who].records, how.part);
      MergedNamed(p, p.table, p.disk, p.flights[who].records, how.part);
    }
    assert q.live == p.live && q.mem == p.mem && q.table == p.table && q.kin == p.kin;
    assert forall k: Key, t, s :: Rightful(p, t, k, s) == Rightful(q, t, k, s);
    forall w <- q.flights | Pending(q, w)
      ensures Pending(p, w) && q.flights[w] == p.flights[w]
    {
    }
  }

  lemma LandedSaved(p: Pool, f: Flight, part: set<Extent>)
    requires Saved(p) && Held(p, f.records)
    ensures Saved(Land(p, f, part))
  {
    var q := Land(p, f, part);
    forall k <- q.disk | !k.Own?
      ensures q.disk[k] in q.content && q.content[q.disk[k]] == q.saved[k]
    {
      assert k in p.disk || k in f.records;
    }
  }

  lemma PersistEndSaved(p: Pool, who: Mover, how: Ending)
    requires Formed(p) && Saved(p) && Enabled(p, PersistEnd(who, how))
    ensures Saved(End(p, who, how))
  {
    if how.Wrote? {
      LandedSaved(p, p.flights[who], how.part);
    }
  }

  // ---------------------------------------------------------------- what is paid for

  lemma MergedUnrecorded(p: Pool, f: Flight, part: set<Extent>, s: Slot)
    requires Unrecorded(f.records, s)
    ensures Unrecorded(Merged(p.disk, f.records, part), s) <==> Replaced(p, f, part, s)
  {
    var m := Merged(p.disk, f.records, part);
    if Replaced(p, f, part, s) {
      forall k <- m | !k.Own?
        ensures m[k] != s
      {
      }
    } else {
      var k :| k in p.disk && !k.Own? && p.disk[k] == s && k.e !in part;
      assert m[k] == s;
    }
  }

  lemma EndGone(p: Pool, who: Mover, how: Ending, s: Slot)
    requires Formed(p) && Generations(p) && Enabled(p, PersistEnd(who, how)) && Gone(p, s)
    ensures Gone(End(p, who, how), s)
  {
    if how.Wrote? {
      MergedUnrecorded(p, p.flights[who], how.part, s);
    }
  }

  /** What a finished persist does to the debts it was paying. */
  lemma EndDebts(p: Pool, who: Mover, how: Ending)
    requires Formed(p) && Debts(p) && Generations(p) && Enabled(p, PersistEnd(who, how)) &&
      Clear(p, PersistEnd(who, how))
    ensures Debts(End(p, who, how))
  {
    var q := End(p, who, how);
    forall s <- q.debt
      ensures q.debt[s].Paying? ==> Paid(q, s, q.debt[s].who)
      ensures q.debt[s].Due? ==> Gone(q, s)
    {
      if p.debt[s].Due? {
        EndGone(p, who, how, s);
      } else if p.debt[s].Paying? {
        EndPaying(p, who, how, s);
      }
    }
  }

  lemma EndPaying(p: Pool, who: Mover, how: Ending, s: Slot)
    requires Formed(p) && Generations(p) && Enabled(p, PersistEnd(who, how)) && Clear(p, PersistEnd(who, how))
    requires s in p.debt && p.debt[s].Paying? && Paid(p, s, p.debt[s].who)
    ensures p.debt[s].who != who ==> Paid(End(p, who, how), s, p.debt[s].who)
    ensures p.debt[s].who == who && how.Ok() ==> Gone(End(p, who, how), s)
  {
    if how.Wrote? {
      EndPayingWrote(p, who, how, s);
    } else {
      var q := End(p, who, how);
      assert q.disk == p.disk && q.last == p.last;
      assert forall w <- q.flights :: w in p.flights && q.flights[w] == p.flights[w];
    }
  }

  lemma EndPayingWrote(p: Pool, who: Mover, how: Ending, s: Slot)
    requires Formed(p) && Generations(p) && Enabled(p, PersistEnd(who, how)) && Clear(p, PersistEnd(who, how))
    requires how.Wrote? && s in p.debt && p.debt[s].Paying? && Paid(p, s, p.debt[s].who)
    ensures p.debt[s].who != who ==> Paid(End(p, who, how), s, p.debt[s].who)
    ensures p.debt[s].who == who && how.Ok() ==> Gone(End(p, who, how), s)
  {
    if Unrecorded(p.flights[who].records, s) {
      MergedUnrecorded(p, p.flights[who], how.part, s);
    }
  }

  lemma EndCopies(p: Pool, who: Mover, how: Ending)
    requires Formed(p) && CopiesGone(p) && Generations(p) && Enabled(p, PersistEnd(who, how))
    ensures CopiesGone(End(p, who, how)) && Generations(End(p, who, how))
  {
    forall from <- p.moving
      ensures Gone(End(p, who, how), p.moving[from])
    {
      EndGone(p, who, how, p.moving[from]);
    }
  }

  /** Nothing is written, nothing new is owed for but what was just emptied. */
  lemma DebtsKept(p: Pool, q: Pool)
    requires Debts(p) && Generations(p)
    requires q.disk == p.disk && q.flights == p.flights && q.last == p.last && q.gen == p.gen
    requires forall from <- q.moving :: Gone(p, q.moving[from])
    requires forall s <- q.debt :: (s in p.debt && q.debt[s] == p.debt[s]) || q.debt[s].Owed?
    ensures CopiesGone(q) && Debts(q) && Generations(q)
  {
    assert forall s :: Gone(p, s) ==> Gone(q, s);
    forall s <- q.debt | q.debt[s].Paying?
      ensures Paid(q, s, q.debt[s].who)
    {
      assert Paid(p, s, q.debt[s].who);
    }
  }

  /** A slot nobody has is on no record. */
  lemma FreshIsGone(p: Pool, s: Slot)
    requires Maps(p) && s !in p.mem
    ensures Gone(p, s)
  {
  }

  lemma BegunGone(p: Pool, who: Mover, pay: set<Slot>, s: Slot)
    requires Gone(p, s) && Unnamed(p.live, s) && who !in p.flights
    ensures Gone(Begun(p, who, pay), s)
  {
  }

  lemma BegunDebts(p: Pool, who: Mover, pay: set<Slot>)
    requires Copies(p) && Debited(p) && CopiesGone(p) && Debts(p) && Generations(p)
    requires Enabled(p, PersistBegin(who, pay))
    ensures var q := Begun(p, who, pay); CopiesGone(q) && Debts(q) && Generations(q)
  {
    var q := Begun(p, who, pay);
    forall from <- p.moving
      ensures Gone(q, p.moving[from])
    {
      assert Copy(p, from, p.moving[from]);
      BegunGone(p, who, pay, p.moving[from]);
    }
    forall s <- p.debt
      ensures q.debt[s].Paying? ==> Paid(q, s, q.debt[s].who)
      ensures q.debt[s].Due? ==> Gone(q, s)
    {
      if q.debt[s].Due? {
        BegunGone(p, who, pay, s);
      }
    }
  }

  lemma SyncDebts(p: Pool, who: Mover)
    requires CopiesGone(p) && Debts(p) && Generations(p) && who in p.flights
    ensures var q := Synced(p, who); CopiesGone(q) && Debts(q) && Generations(q)
  {
    var q := Synced(p, who);
    assert forall w <- q.flights ::
      w in p.flights && q.flights[w].records == p.flights[w].records && q.flights[w].gen == p.flights[w].gen;
    assert forall s :: Gone(p, s) ==> Gone(q, s);
    forall s <- p.debt | p.debt[s].Paying?
      ensures Paid(q, s, q.debt[s].who)
    {
      assert Paid(p, s, p.debt[s].who);
    }
  }

  // ---------------------------------------------------------------- every step

  /** A share comes back where its record has it. */
  lemma AShareComesBack(p: Pool, known: set<Volume>, sealed: set<Volume>, k: Key)
    requires Shares(p) && Agree(p) && Recorded(p) && InRows(p.disk) && k.Share? && k in p.disk
    ensures Found(p, known, sealed, k.e) == [p.disk[k]]
    ensures k in Restored(p, known, sealed) && Restored(p, known, sealed)[k] == p.disk[k]
  {
    assert Owned(p.table, k.e) == {} by {
      forall s | s in p.table
        ensures p.table[s].of != k.e
      {
        assert Has(p, s);
      }
    }
    assert RecordOf(p.disk, k.e) == [p.disk[k]];
    AShareIsWhereTheRecordSays(WorldOf(p, known, sealed), p.table, k.e, p.disk[k]);
    Brings(p, known, sealed, k);
  }

  lemma ALegIsRightful(p: Pool, known: set<Volume>, sealed: set<Volume>, e: Extent, i: nat)
    requires Recorded(p) && !Single(e) && i < |Found(p, known, sealed, e)|
    ensures Found(p, known, sealed, e)[i] in p.table && p.table[Found(p, known, sealed, e)[i]].of == e
  {
    LocatedIs(WorldOf(p, known, sealed), p.table, e, RecordOf(p.disk, e));
    if Found(p, known, sealed, e) == RecordOf(p.disk, e) {
      RecordAt(p, e, i);
    }
  }

  lemma ALegComesBack(p: Pool, known: set<Volume>, sealed: set<Volume>, k: Key)
    requires Recorded(p) && k in Restored(p, known, sealed) && k.Leg?
    ensures Rightful(p, p.table, k, Restored(p, known, sealed)[k])
  {
    Brought(p, known, sealed, k);
    ALegIsRightful(p, known, sealed, k.e, Rank(k));
  }

  lemma CrashKeeps(p: Pool, known: set<Volume>, sealed: set<Volume>)
    requires Inv(p)
    ensures Kept(Do(p, Crash(known, sealed)))
  {
    var q := Do(p, Crash(known, sealed));
    forall k <- q.live | !k.Own?
      ensures Rightful(q, q.mem, k, q.live[k])
    {
      if k.Leg? {
        ALegComesBack(p, known, sealed, k);
      } else {
        Brought(p, known, sealed, k);
        AShareComesBack(p, known, sealed, k);
      }
    }
    assert forall k <- q.disk :: !k.Own? ==> Rightful(p, p.table, k, p.disk[k]);
  }

  lemma MapsKept(p: Pool, a: Step)
    requires Inv(p) && Enabled(p, a) && !a.Crash?
    ensures Maps(Do(p, a)) && Saved(Do(p, a))
  {
    match a
    case Create(key, slot, data, since) => CreateMaps(p, key, slot, data, since);
    case Clone(of, key) => CloneMaps(p, of, key);
    case Write(key, data) => WriteMaps(p, key, data); WriteSaved(p, key, data);
    case BeginMove(from, to) => BeginMoveMaps(p, from, to);
    case GiveBack(from) => GiveBackMaps(p, from);
    case Publish(who, from) => PublishMaps(p, who, from);
    case PersistBegin(who, pay) => PersistBeginMaps(p, who, pay);
    case Sync(who) => SyncMaps(p, who);
    case PersistEnd(who, how) => PersistEndMaps(p, who, how); PersistEndSaved(p, who, how);
    case Release(slot) => ReleaseMaps(p, slot);
    case TableEntry(slot) => TableEntryMaps(p, slot);
  }

  lemma DebtsAreKept(p: Pool, a: Step)
    requires Inv(p) && Enabled(p, a) && Clear(p, a) && !a.Crash?
    ensures CopiesGone(Do(p, a)) && Debts(Do(p, a)) && Generations(Do(p, a))
  {
    if a.PersistBegin? {
      BegunDebts(p, a.who, a.pay);
    } else if a.Sync? {
      SyncDebts(p, a.who);
    } else if a.PersistEnd? {
      EndDebts(p, a.who, a.how);
      EndCopies(p, a.who, a.how);
    } else {
      OthersKeepDebts(p, a);
    }
  }

  lemma OthersWriteNothing(p: Pool, a: Step)
    requires Formed(p) && Enabled(p, a) && !a.Crash? && !a.PersistBegin? && !a.Sync? && !a.PersistEnd?
    ensures var q := Do(p, a); q.disk == p.disk && q.flights == p.flights && q.last == p.last && q.gen == p.gen
    ensures forall s <- Do(p, a).debt :: (s in p.debt && Do(p, a).debt[s] == p.debt[s]) || Do(p, a).debt[s].Owed?
    ensures forall f <- Do(p, a).moving ::
      (f in p.moving && Do(p, a).moving[f] == p.moving[f]) || (a.BeginMove? && Do(p, a).moving[f] == a.to)
  {
  }

  lemma OthersKeepDebts(p: Pool, a: Step)
    requires Inv(p) && Enabled(p, a) && !a.Crash? && !a.PersistBegin? && !a.Sync? && !a.PersistEnd?
    ensures CopiesGone(Do(p, a)) && Debts(Do(p, a)) && Generations(Do(p, a))
  {
    OthersWriteNothing(p, a);
    if a.BeginMove? {
      FreshIsGone(p, a.to);
    }
    DebtsKept(p, Do(p, a));
  }

  lemma StepKeeps(p: Pool, a: Step)
    requires Inv(p) && Enabled(p, a) && Clear(p, a)
    ensures Inv(Do(p, a))
  {
    SlotTables.StepKeeps(p, a);
    if a.Crash? {
      CrashKeeps(p, a.known, a.sealed);
    } else {
      MapsKept(p, a);
      DebtsAreKept(p, a);
    }
  }
}
