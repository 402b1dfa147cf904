/** What the slot tables keep through every step: each extent of one leg has one newest slot, the one
    its map names, and no slot is freed while it is the newest of its extent on disk. So a restart,
    which takes the newest (src/volume/gem.rs:1158-1217), finds each of them. */
module SlotTables {
  import opened Restart
  import opened Relocation

  predicate Single(e: Extent) {
    !e.volume.mirrored
  }

  predicate Has(p: Pool, s: Slot) {
    s in p.mem || s in p.table
  }

  /** A slot's entry, in memory or on disk. */
  function At(p: Pool, s: Slot): Entry
    requires Has(p, s)
  {
    if s in p.mem then p.mem[s] else p.table[s]
  }

  /** A copy under way: its source stays put, and nothing else knows its destination. */
  ghost predicate Copies(p: Pool) {
    && (forall from <- p.moving :: Copy(p, from, p.moving[from]))
    && (forall a <- p.moving, b <- p.moving :: p.moving[a] != b && (a != b ==> p.moving[a] != p.moving[b]))
  }

  ghost predicate Copy(p: Pool, from: Slot, to: Slot) {
    && from in p.mem && to in p.mem && from !in p.debt && to !in p.debt && to !in p.table
    && Unnamed(p.live, to) && p.mem[to].of == p.mem[from].of
    && from in p.content && to in p.content && p.content[to] == p.content[from]
    && var e := p.mem[from].of;
       Single(e) ==> Own(e) in p.live && p.live[Own(e)] == from && p.mem[to].gen == p.mem[from].gen + 1
  }

  /** Slots owed, being paid for, or due are allocated, and no map names them. */
  ghost predicate Debited(p: Pool) {
    forall s <- p.debt :: s in p.mem && Unnamed(p.live, s) && (p.debt[s].Paying? ==> p.debt[s].who in p.flights)
  }

  /** Entries on disk say whose the slots are, as those in memory do. */
  ghost predicate Agree(p: Pool) {
    forall s <- p.mem :: s in p.table ==> p.mem[s].of == p.table[s].of && p.mem[s].gen == p.table[s].gen
  }

  /** Records have every leg before one they have, and an extent of one leg once. */
  ghost predicate InRows(m: map<Key, Slot>) {
    forall k <- m :: Kind(k) && (k.Leg? && k.leg > 0 ==> Leg(k.e, k.leg - 1) in m) && (k.Own? ==> Share(k.e) !in m)
  }

  ghost predicate WellKept(p: Pool) {
    && InRows(p.live) && InRows(p.disk)
    && forall who <- p.flights :: InRows(p.flights[who].records) && p.flights[who].records.Keys <= p.live.Keys
  }

  /** An extent of one leg is mapped to its newest slot. */
  ghost predicate Mapped(p: Pool, e: Extent) {
    Own(e) in p.live && p.live[Own(e)] in p.mem && p.mem[p.live[Own(e)]].of == e
  }

  ghost predicate Newest(p: Pool) {
    && (forall k <- p.live :: k.Own? ==> Mapped(p, k.e))
    && (forall s :: Has(p, s) && Single(At(p, s).of) && !Copying(p, s) ==>
          Mapped(p, At(p, s).of) && Upto(p, s, p.live[Own(At(p, s).of)]))
  }

  ghost predicate Upto(p: Pool, s: Slot, live: Slot)
    requires Has(p, s) && live in p.mem
  {
    s == live || At(p, s).gen < p.mem[live].gen
  }

  /** And those of its slots are apart. */
  ghost predicate Apart(p: Pool) {
    forall s, u :: Has(p, s) && Has(p, u) && s != u && At(p, s).of == At(p, u).of && Single(At(p, s).of) ==>
      At(p, s).gen != At(p, u).gen
  }

  /** A volume that maps an ancestor's slot has none of its own there. */
  ghost predicate Unowned(p: Pool, e: Extent) {
    forall s :: Has(p, s) ==> At(p, s).of != e
  }

  ghost predicate Shares(p: Pool) {
    && (forall k <- p.live :: k.Share? ==> Unowned(p, k.e))
    && (forall k <- p.disk :: k.Share? ==> Unowned(p, k.e))
  }

  /** Its entry goes, or may go at any time. */
  ghost predicate Doomed(p: Pool, s: Slot) {
    && Has(p, s)
    && (s !in p.mem || (s in p.debt && (p.debt[s].Due? || (p.debt[s].Paying? && p.debt[s].who in p.flights &&
        p.flights[p.debt[s].who].synced))))
  }

  ghost predicate NewerOnDisk(p: Pool, s: Slot)
    requires Has(p, s)
  {
    exists t <- p.table :: p.table[t].of == At(p, s).of && p.table[t].gen > At(p, s).gen
  }

  ghost predicate Outlived(p: Pool) {
    forall s :: Doomed(p, s) && Single(At(p, s).of) ==> NewerOnDisk(p, s)
  }

  ghost predicate Tabled(p: Pool, e: Extent) {
    exists t <- p.table :: p.table[t].of == e
  }

  /** What is on record of an extent of one leg has an entry. */
  ghost predicate OnDisk(p: Pool) {
    && (forall k <- p.disk :: k.Own? ==> k in p.live && Tabled(p, k.e))
    && (forall who <- p.flights, k <- p.flights[who].records ::
          p.flights[who].synced && k.Own? ==> Tabled(p, k.e))
  }

  /** What movers keep. */
  ghost predicate Shaped(p: Pool) {
    Formed(p) && WellKept(p)
  }

  ghost predicate Moving(p: Pool) {
    Copies(p) && Debited(p)
  }

  ghost predicate Ordered(p: Pool) {
    Agree(p) && Newest(p) && Apart(p) && Shares(p)
  }

  ghost predicate Lasting(p: Pool) {
    Outlived(p) && OnDisk(p)
  }

  ghost predicate Tables(p: Pool) {
    Shaped(p) && Moving(p) && Ordered(p) && Lasting(p)
  }

  // ---------------------------------------------------------------- every step keeps it

  // ---------------------------------------------------------------- maps, copies and debts

  lemma CreateShaped(p: Pool, key: Key, slot: Slot, data: Data, since: nat)
    requires Shaped(p) && Moving(p) && Enabled(p, Create(key, slot, data, since))
    ensures Shaped(Do(p, Create(key, slot, data, since)))
  {
  }

  lemma CreateMoving(p: Pool, key: Key, slot: Slot, data: Data, since: nat)
    requires Shaped(p) && Moving(p) && Enabled(p, Create(key, slot, data, since))
    ensures Moving(Do(p, Create(key, slot, data, since)))
  {
    var q := Do(p, Create(key, slot, data, since));
    forall f <- q.moving
      ensures Copy(q, f, q.moving[f])
    {
    }
  }

  lemma CloneShaped(p: Pool, of: Key, key: Key)
    requires Shaped(p) && Moving(p) && Enabled(p, Clone(of, key))
    ensures Shaped(Do(p, Clone(of, key)))
  {
  }

  lemma CloneMoving(p: Pool, of: Key, key: Key)
    requires Shaped(p) && Moving(p) && Enabled(p, Clone(of, key))
    ensures Moving(Do(p, Clone(of, key)))
  {
    var q := Do(p, Clone(of, key));
    forall f <- q.moving
      ensures Copy(q, f, q.moving[f])
    {
    }
  }

  lemma WriteShaped(p: Pool, key: Key, data: Data)
    requires Shaped(p) && Moving(p) && Enabled(p, Write(key, data))
    ensures Shaped(Do(p, Write(key, data)))
  {
  }

  lemma WriteMoving(p: Pool, key: Key, data: Data)
    requires Shaped(p) && Moving(p) && Enabled(p, Write(key, data))
    ensures Moving(Do(p, Write(key, data)))
  {
    var q := Do(p, Write(key, data));
    forall f <- q.moving
      ensures Copy(q, f, q.moving[f])
    {
    }
  }

  lemma BeginMoveShaped(p: Pool, from: Slot, to: Slot)
    requires Shaped(p) && Moving(p) && Enabled(p, BeginMove(from, to))
    ensures Shaped(Do(p, BeginMove(from, to)))
  {
  }

  lemma BeginMoveMoving(p: Pool, from: Slot, to: Slot)
    requires Shaped(p) && Moving(p) && Enabled(p, BeginMove(from, to))
    ensures Moving(Do(p, BeginMove(from, to)))
  {
    var q := Do(p, BeginMove(from, to));
    forall f <- q.moving
      ensures Copy(q, f, q.moving[f])
    {
    }
  }

  lemma GiveBackShaped(p: Pool, from: Slot)
    requires Shaped(p) && Moving(p) && Enabled(p, GiveBack(from))
    ensures Shaped(Do(p, GiveBack(from)))
  {
  }

  lemma GiveBackMoving(p: Pool, from: Slot)
    requires Shaped(p) && Moving(p) && Enabled(p, GiveBack(from))
    ensures Moving(Do(p, GiveBack(from)))
  {
    var q := Do(p, GiveBack(from));
    forall f <- q.moving
      ensures Copy(q, f, q.moving[f])
    {
    }
  }

  lemma PublishShaped(p: Pool, who: Mover, from: Slot)
    requires Shaped(p) && Moving(p) && Enabled(p, Publish(who, from))
    ensures Shaped(Do(p, Publish(who, from)))
  {
  }

  lemma PublishMoving(p: Pool, who: Mover, from: Slot)
    requires Shaped(p) && Moving(p) && Enabled(p, Publish(who, from))
    ensures Moving(Do(p, Publish(who, from)))
  {
    var q := Do(p, Publish(who, from));
    forall f <- q.moving
      ensures Copy(q, f, q.moving[f])
    {
    }
  }

  lemma PersistBeginShaped(p: Pool, who: Mover, pay: set<Slot>)
    requires Shaped(p) && Moving(p) && Enabled(p, PersistBegin(who, pay))
    ensures Shaped(Do(p, PersistBegin(who, pay)))
  {
  }

  lemma PersistBeginMoving(p: Pool, who: Mover, pay: set<Slot>)
    requires Shaped(p) && Moving(p) && Enabled(p, PersistBegin(who, pay))
    ensures Moving(Do(p, PersistBegin(who, pay)))
  {
    var q := Do(p, PersistBegin(who, pay));
    forall f <- q.moving
      ensures Copy(q, f, q.moving[f])
    {
    }
  }

  lemma SyncShaped(p: Pool, who: Mover)
    requires Shaped(p) && Moving(p) && Enabled(p, Sync(who))
    ensures Shaped(Do(p, Sync(who)))
  {
  }

  lemma SyncMoving(p: Pool, who: Mover)
    requires Shaped(p) && Moving(p) && Enabled(p, Sync(who))
    ensures Moving(Do(p, Sync(who)))
  {
    var q := Do(p, Sync(who));
    forall f <- q.moving
      ensures Copy(q, f, q.moving[f])
    {
    }
  }

  lemma MergedInRows(was: map<Key, Slot>, now: map<Key, Slot>, part: set<Extent>)
    requires InRows(was) && InRows(now)
    ensures InRows(Merged(was, now, part))
  {
    var m := Merged(was, now, part);
    forall k <- m
      ensures Kind(k) && (k.Leg? && k.leg > 0 ==> Leg(k.e, k.leg - 1) in m) && (k.Own? ==> Share(k.e) !in m)
    {
      assert k in was || k in now;
    }
  }

  lemma PersistEndShaped(p: Pool, who: Mover, how: Ending)
    requires Shaped(p) && Enabled(p, PersistEnd(who, how))
    ensures Shaped(Do(p, PersistEnd(who, how)))
  {
    var q := End(p, who, how);
    assert q.live == p.live && q.mem == p.mem && q.table == p.table && q.content == p.content;
    assert forall w <- q.flights :: w in p.flights && q.flights[w] == p.flights[w];
    if how.Wrote? {
      MergedInRows(p.disk, p.flights[who].records, how.part);
    }
  }

  lemma PersistEndMoving(p: Pool, who: Mover, how: Ending)
    requires Shaped(p) && Moving(p) && Enabled(p, PersistEnd(who, how))
    ensures Moving(Do(p, PersistEnd(who, how)))
  {
    var q := Do(p, PersistEnd(who, how));
    forall f <- q.moving
      ensures Copy(q, f, q.moving[f])
    {
    }
  }

  lemma ReleaseShaped(p: Pool, slot: Slot)
    requires Shaped(p) && Moving(p) && Enabled(p, Release(slot))
    ensures Shaped(Do(p, Release(slot)))
  {
  }

  lemma ReleaseMoving(p: Pool, slot: Slot)
    requires Shaped(p) && Moving(p) && Enabled(p, Release(slot))
    ensures Moving(Do(p, Release(slot)))
  {
    var q := Do(p, Release(slot));
    forall f <- q.moving
      ensures Copy(q, f, q.moving[f])
    {
    }
  }

  lemma TableEntryShaped(p: Pool, slot: Slot)
    requires Shaped(p) && Moving(p) && Enabled(p, TableEntry(slot))
    ensures Shaped(Do(p, TableEntry(slot)))
  {
  }

  lemma TableEntryMoving(p: Pool, slot: Slot)
    requires Shaped(p) && Moving(p) && Enabled(p, TableEntry(slot))
    ensures Moving(Do(p, TableEntry(slot)))
  {
    var q := Do(p, TableEntry(slot));
    forall f <- q.moving
      ensures Copy(q, f, q.moving[f])
    {
    }
  }

  // ---------------------------------------------------------------- whose slots are whose

  /** No slot is new, none changes hands, and the same ones are mapped. */
  ghost predicate NoneNew(p: Pool, q: Pool) {
    SameSlots(p, q) && forall k: Key :: k.Share? && (k in q.live || k in q.disk) ==> k in p.live || k in p.disk
  }

  ghost predicate SameSlots(p: Pool, q: Pool) {
    && (forall s :: Has(q, s) ==> Has(p, s) && At(q, s).of == At(p, s).of && At(q, s).gen == At(p, s).gen)
    && (forall k <- q.live :: k.Own? ==> k in p.live && q.live[k] == p.live[k])
    && (forall k <- p.live :: k.Own? ==> k in q.live && (p.live[k] in p.mem ==> p.live[k] in q.mem))
    && (forall s :: Has(q, s) && Copying(p, s) ==> Copying(q, s))
  }

  lemma NewestKept(p: Pool, q: Pool)
    requires Newest(p) && SameSlots(p, q)
    ensures Newest(q)
  {
    forall k <- q.live | k.Own?
      ensures Mapped(q, k.e)
    {
      MappedKept(p, q, k.e);
    }
    forall s | Has(q, s) && Single(At(q, s).of) && !Copying(q, s)
      ensures Mapped(q, At(q, s).of) && Upto(q, s, q.live[Own(At(q, s).of)])
    {
      assert Has(p, s) && !Copying(p, s);
      MappedKept(p, q, At(p, s).of);
    }
  }

  lemma MappedKept(p: Pool, q: Pool, e: Extent)
    requires Mapped(p, e) && SameSlots(p, q)
    ensures Mapped(q, e) && q.live[Own(e)] == p.live[Own(e)] && q.mem[q.live[Own(e)]].gen == p.mem[p.live[Own(e)]].gen
  {
    assert Has(q, p.live[Own(e)]);
  }

  lemma UnownedKept(p: Pool, q: Pool)
    requires SameSlots(p, q)
    ensures forall e :: Unowned(p, e) ==> Unowned(q, e)
  {
  }

  lemma SharesKept(p: Pool, q: Pool)
    requires Shares(p) && NoneNew(p, q)
    ensures Shares(q)
  {
    UnownedKept(p, q);
  }

  lemma ApartKept(p: Pool, q: Pool)
    requires Apart(p) && SameSlots(p, q)
    ensures Apart(q)
  {
    forall s, u | Has(q, s) && Has(q, u) && s != u && At(q, s).of == At(q, u).of && Single(At(q, s).of)
      ensures At(q, s).gen != At(q, u).gen
    {
      assert Has(p, s) && Has(p, u);
    }
  }

  lemma WriteOrdered(p: Pool, key: Key, data: Data)
    requires Tables(p) && Enabled(p, Write(key, data))
    ensures Agree(Do(p, Write(key, data))) && NoneNew(p, Do(p, Write(key, data)))
  {
  }

  lemma GiveBackOrdered(p: Pool, from: Slot)
    requires Tables(p) && Enabled(p, GiveBack(from))
    ensures Agree(Do(p, GiveBack(from))) && NoneNew(p, Do(p, GiveBack(from)))
  {
    var q := Do(p, GiveBack(from));
    forall s | Has(q, s) && Copying(p, s)
      ensures Copying(q, s)
    {
      var other :| other in p.moving && p.moving[other] == s;
      assert other in q.moving && q.moving[other] == s;
    }
  }

  lemma PersistBeginOrdered(p: Pool, who: Mover, pay: set<Slot>)
    requires Tables(p) && Enabled(p, PersistBegin(who, pay))
    ensures Agree(Do(p, PersistBegin(who, pay))) && NoneNew(p, Do(p, PersistBegin(who, pay)))
  {
  }

  /** Entries reach the disk from memory, or leave it. */
  ghost predicate Rewritten(p: Pool, t: Table) {
    forall s <- t :: (s in p.mem && t[s] == p.mem[s]) || (s in p.table && t[s] == p.table[s])
  }

  lemma RewrittenOrdered(p: Pool, t: Table, flights: map<Mover, Flight>)
    requires Agree(p) && Rewritten(p, t)
    ensures Agree(p.(table := t, flights := flights)) && NoneNew(p, p.(table := t, flights := flights))
  {
  }

  lemma EnteredIsRewritten(p: Pool, s: Slot)
    ensures Rewritten(p, Entered(p, s)) && Rewritten(p, Flushed(p))
  {
  }

  lemma PersistEndOrdered(p: Pool, who: Mover, how: Ending)
    requires Tables(p) && who in p.flights
    ensures Agree(End(p, who, how)) && NoneNew(p, End(p, who, how))
  {
    var q := End(p, who, how);
    assert q == p.(disk := q.disk, last := q.last, saved := q.saved, flights := q.flights, debt := q.debt);
    assert q.disk.Keys <= p.disk.Keys + p.flights[who].records.Keys;
    assert p.flights[who].records.Keys <= p.live.Keys;
  }

  lemma ReleaseOrdered(p: Pool, slot: Slot)
    requires Tables(p) && Enabled(p, Release(slot))
    ensures Agree(Do(p, Release(slot))) && NoneNew(p, Do(p, Release(slot)))
  {
  }
  /** A slot neither allocated nor on disk is taken. */
  ghost predicate Takes(p: Pool, q: Pool, slot: Slot) {
    && slot !in p.mem && slot !in p.table && slot in q.mem
    && (forall s :: Has(q, s) && s != slot ==> Has(p, s) && At(q, s) == At(p, s) && (s in p.mem <==> s in q.mem))
    && (forall s :: Has(p, s) ==> Has(q, s))
    && p.table == q.table
  }

  lemma CreateTakes(p: Pool, key: Key, slot: Slot, data: Data, since: nat)
    requires Formed(p) && Enabled(p, Create(key, slot, data, since))
    ensures Takes(p, Do(p, Create(key, slot, data, since)), slot)
  {
  }

  lemma NoneYet(p: Pool, e: Extent)
    requires Copies(p) && Newest(p) && Own(e) !in p.live && Single(e)
    ensures Unowned(p, e)
  {
    forall s | Has(p, s)
      ensures At(p, s).of != e
    {
      if Copying(p, s) {
        var from :| from in p.moving && p.moving[from] == s;
        assert Copy(p, from, s);
      }
    }
  }

  lemma CreateUpto(p: Pool, key: Key, slot: Slot, data: Data, since: nat, s: Slot)
    requires Copies(p) && Newest(p) && Formed(p) && Enabled(p, Create(key, slot, data, since))
    requires Has(p, s) && Single(At(p, s).of) && !Copying(p, s)
    ensures
      var q := Do(p, Create(key, slot, data, since));
      Mapped(q, At(p, s).of) && q.live[Own(At(p, s).of)] == p.live[Own(At(p, s).of)]
  {
    if key.Own? {
      NoneYet(p, key.e);
    }
    assert Mapped(p, At(p, s).of);
  }

  lemma CreateOrdered(p: Pool, key: Key, slot: Slot, data: Data, since: nat)
    requires Tables(p) && Enabled(p, Create(key, slot, data, since))
    ensures Agree(Do(p, Create(key, slot, data, since))) && Newest(Do(p, Create(key, slot, data, since)))
  {
    var q := Do(p, Create(key, slot, data, since));
    CreateTakes(p, key, slot, data, since);
    forall k <- q.live | k.Own?
      ensures Mapped(q, k.e)
    {
      assert k != key ==> Mapped(p, k.e);
    }
    forall s | Has(q, s) && Single(At(q, s).of) && !Copying(q, s)
      ensures Mapped(q, At(q, s).of) && Upto(q, s, q.live[Own(At(q, s).of)])
    {
      if s != slot {
        CreateUpto(p, key, slot, data, since, s);
      }
    }
  }

  lemma CreateApart(p: Pool, key: Key, slot: Slot, data: Data, since: nat)
    requires Tables(p) && Enabled(p, Create(key, slot, data, since))
    ensures Apart(Do(p, Create(key, slot, data, since))) && Shares(Do(p, Create(key, slot, data, since)))
  {
    var q := Do(p, Create(key, slot, data, since));
    CreateTakes(p, key, slot, data, since);
    if key.Own? {
      NoneYet(p, key.e);
    }
    forall e: Extent | Unowned(p, e) && e != key.e
      ensures Unowned(q, e)
    {
    }
  }

  lemma CloneOrdered(p: Pool, of: Key, key: Key)
    requires Agree(p) && Clonable(p, of, key)
    ensures Agree(Cloned(p, of, key)) && SameSlots(p, Cloned(p, of, key))
  {
  }

  lemma CloneShares(p: Pool, of: Key, key: Key)
    requires Shares(p) && Clonable(p, of, key) && SameSlots(p, Cloned(p, of, key))
    ensures Shares(Cloned(p, of, key))
  {
    var q := Cloned(p, of, key);
    UnownedKept(p, q);
    assert Unowned(p, key.e);
  }

  lemma CopyGen(p: Pool, from: Slot)
    requires WellKept(p) && from in p.mem && Single(p.mem[from].of)
    ensures GenOfCopy(p, from) == p.mem[from].gen + 1
  {
  }

  lemma BeginMoveTakes(p: Pool, from: Slot, to: Slot)
    requires Formed(p) && Agree(p) && Enabled(p, BeginMove(from, to))
    ensures Takes(p, Copied(p, from, to), to) && Agree(Copied(p, from, to))
  {
  }

  lemma BeginMoveUpto(p: Pool, from: Slot, to: Slot, s: Slot)
    requires Newest(p) && Enabled(p, BeginMove(from, to)) && from in p.content && Takes(p, Copied(p, from, to), to)
    requires var q := Copied(p, from, to); Has(q, s) && Single(At(q, s).of) && !Copying(q, s)
    ensures var q := Copied(p, from, to); Mapped(q, At(q, s).of) && Upto(q, s, q.live[Own(At(q, s).of)])
  {
    assert Copied(p, from, to).moving[from] == to;
    if Copying(p, s) {
      StillCopying(p, from, to, s);
    }
    assert Has(p, s) && Mapped(p, At(p, s).of);
  }

  lemma BeginMoveOrdered(p: Pool, from: Slot, to: Slot)
    requires Tables(p) && Enabled(p, BeginMove(from, to))
    ensures Takes(p, Do(p, BeginMove(from, to)), to)
    ensures Agree(Do(p, BeginMove(from, to))) && Newest(Do(p, BeginMove(from, to)))
  {
    var q := Do(p, BeginMove(from, to));
    BeginMoveTakes(p, from, to);
    forall s | Has(q, s) && Single(At(q, s).of) && !Copying(q, s)
      ensures Mapped(q, At(q, s).of) && Upto(q, s, q.live[Own(At(q, s).of)])
    {
      BeginMoveUpto(p, from, to, s);
    }
  }

  lemma StillCopying(p: Pool, from: Slot, to: Slot, s: Slot)
    requires from !in p.moving && from in p.mem && from in p.content && Copying(p, s)
    ensures Copying(Copied(p, from, to), s)
  {
    var f :| f in p.moving && p.moving[f] == s;
    assert f in Copied(p, from, to).moving;
  }

  /** A copy's entry is newer than all of its extent's. */
  lemma NewestOfAll(p: Pool, from: Slot, s: Slot)
    requires Tables(p) && from in p.mem && Single(p.mem[from].of) && Moves(p, from) && from !in p.moving
    requires Has(p, s) && At(p, s).of == p.mem[from].of
    ensures At(p, s).gen <= p.mem[from].gen
  {
  }

  lemma BeginMoveApart(p: Pool, from: Slot, to: Slot)
    requires Tables(p) && Enabled(p, BeginMove(from, to)) && Takes(p, Do(p, BeginMove(from, to)), to)
    ensures Apart(Do(p, BeginMove(from, to))) && Shares(Do(p, BeginMove(from, to)))
  {
    var q := Do(p, BeginMove(from, to));
    forall s | Has(q, s) && s != to && At(q, s).of == q.mem[to].of && Single(q.mem[to].of)
      ensures At(q, s).gen != q.mem[to].gen
    {
      NewestOfAll(p, from, s);
      CopyGen(p, from);
    }
    forall e: Extent | Unowned(p, e)
      ensures Unowned(q, e)
    {
      assert Has(p, from);
    }
  }

  lemma PublishMaps(p: Pool, who: Mover, from: Slot, e: Extent)
    requires Tables(p) && Enabled(p, Publish(who, from)) && Mapped(p, e) && Single(e)
    ensures
      var q := Do(p, Publish(who, from));
      && Mapped(q, e) && Copy(p, from, p.moving[from])
      && q.live[Own(e)] == (if p.mem[from].of == e then p.moving[from] else p.live[Own(e)])
  {
    assert Copy(p, from, p.moving[from]);
  }

  lemma PublishOrdered(p: Pool, who: Mover, from: Slot)
    requires Tables(p) && Enabled(p, Publish(who, from))
    ensures Agree(Do(p, Publish(who, from))) && Newest(Do(p, Publish(who, from)))
  {
    var q := Do(p, Publish(who, from));
    forall k <- q.live | k.Own?
      ensures Mapped(q, k.e)
    {
      PublishMaps(p, who, from, k.e);
    }
    forall s | Has(q, s) && Single(At(q, s).of) && !Copying(q, s)
      ensures Mapped(q, At(q, s).of) && Upto(q, s, q.live[Own(At(q, s).of)])
    {
      PublishUpto(p, who, from, s);
    }
  }

  lemma CopyingOn(p: Pool, who: Mover, from: Slot, s: Slot)
    requires Enabled(p, Publish(who, from)) && Copying(p, s) && s != p.moving[from]
    ensures Copying(Published(p, who, from), s)
  {
    var f :| f in p.moving && p.moving[f] == s;
    assert f in Published(p, who, from).moving;
  }

  lemma PublishUpto(p: Pool, who: Mover, from: Slot, s: Slot)
    requires Tables(p) && Enabled(p, Publish(who, from))
    requires var q := Do(p, Publish(who, from)); Has(q, s) && Single(At(q, s).of) && !Copying(q, s)
    ensures var q := Do(p, Publish(who, from)); Mapped(q, At(q, s).of) && Upto(q, s, q.live[Own(At(q, s).of)])
  {
    assert Copy(p, from, p.moving[from]);
    if Copying(p, s) && s != p.moving[from] {
      CopyingOn(p, who, from, s);
    }
    PublishMaps(p, who, from, At(p, s).of);
  }

  lemma PublishApart(p: Pool, who: Mover, from: Slot)
    requires Tables(p) && Enabled(p, Publish(who, from))
    ensures Apart(Do(p, Publish(who, from))) && Shares(Do(p, Publish(who, from)))
  {
    var q := Do(p, Publish(who, from));
    assert forall s :: Has(q, s) ==> Has(p, s) && At(q, s).of == At(p, s).of && At(q, s).gen == At(p, s).gen;
    assert forall e :: Unowned(p, e) ==> Unowned(q, e);
  }

  // ---------------------------------------------------------------- what outlasts what

  /** Nothing else goes, and nothing leaves the disk. */
  ghost predicate NoneGoes(p: Pool, q: Pool) {
    && (forall s :: Doomed(q, s) ==> Doomed(p, s) && At(q, s).of == At(p, s).of && At(q, s).gen == At(p, s).gen)
    && q.table == p.table
  }

  lemma OutlivedKept(p: Pool, q: Pool)
    requires Outlived(p) && NoneGoes(p, q)
    ensures Outlived(q)
  {
  }

  lemma TakesLasting(p: Pool, q: Pool, slot: Slot)
    requires Outlived(p) && Debited(p) && Takes(p, q, slot) && q.debt == p.debt && q.flights == p.flights
    ensures Outlived(q)
  {
    OutlivedKept(p, q);
  }

  lemma CloneLasting(p: Pool, of: Key, key: Key)
    requires Tables(p) && Enabled(p, Clone(of, key))
    ensures Lasting(Do(p, Clone(of, key)))
  {
    OutlivedKept(p, Do(p, Clone(of, key)));
  }

  lemma WriteLasting(p: Pool, key: Key, data: Data)
    requires Tables(p) && Enabled(p, Write(key, data))
    ensures Lasting(Do(p, Write(key, data)))
  {
    OutlivedKept(p, Do(p, Write(key, data)));
  }

  lemma GiveBackLasting(p: Pool, from: Slot)
    requires Tables(p) && Enabled(p, GiveBack(from))
    ensures Lasting(Do(p, GiveBack(from)))
  {
    assert Copy(p, from, p.moving[from]);
    OutlivedKept(p, Do(p, GiveBack(from)));
  }

  lemma PublishLasting(p: Pool, who: Mover, from: Slot)
    requires Formed(p) && Lasting(p) && Enabled(p, Publish(who, from))
    ensures Lasting(Do(p, Publish(who, from)))
  {
    OutlivedKept(p, Do(p, Publish(who, from)));
  }

  lemma PersistBeginLasting(p: Pool, who: Mover, pay: set<Slot>)
    requires Tables(p) && Enabled(p, PersistBegin(who, pay))
    ensures Lasting(Do(p, PersistBegin(who, pay)))
  {
    OutlivedKept(p, Do(p, PersistBegin(who, pay)));
  }

  lemma PersistEndOutlived(p: Pool, who: Mover, how: Ending)
    requires Formed(p) && Outlived(p) && Enabled(p, PersistEnd(who, how))
    ensures Outlived(End(p, who, how))
  {
    var q := End(p, who, how);
    assert forall s :: Has(q, s) ==> Has(p, s) && At(q, s) == At(p, s);
    OutlivedKept(p, q);
  }

  lemma PersistEndOnDisk(p: Pool, who: Mover, how: Ending)
    requires Formed(p) && OnDisk(p) && WellKept(p) && Enabled(p, PersistEnd(who, how))
    ensures OnDisk(End(p, who, how))
  {
    var q := End(p, who, how);
    forall k <- q.disk | k.Own?
      ensures k in q.live && Tabled(q, k.e)
    {
      assert k in p.disk || (how.Wrote? && k in p.flights[who].records);
      assert Tabled(p, k.e);
    }
    assert forall e :: Tabled(p, e) ==> Tabled(q, e);
  }

  lemma ReleaseLasting(p: Pool, slot: Slot)
    requires Tables(p) && Enabled(p, Release(slot))
    ensures Lasting(Do(p, Release(slot)))
  {
    OutlivedKept(p, Do(p, Release(slot)));
  }

  /** The slot an extent of one leg is mapped to is flushed. */
  lemma LiveIsFlushed(p: Pool, e: Extent)
    requires Mapped(p, e) && Copies(p)
    ensures p.live[Own(e)] in Flushed(p) && Flushed(p)[p.live[Own(e)]] == p.mem[p.live[Own(e)]]
  {
  }

  lemma SyncOutlived(p: Pool, who: Mover)
    requires Tables(p) && who in p.flights
    ensures Outlived(Synced(p, who))
  {
    var q := Synced(p, who);
    forall s | Doomed(q, s) && Single(At(q, s).of)
      ensures NewerOnDisk(q, s)
    {
      var e := p.mem[s].of;
      assert s in p.debt;
      assert Has(p, s) && Mapped(p, e);
      LiveIsFlushed(p, e);
    }
  }

  lemma SyncOnDisk(p: Pool, who: Mover)
    requires Tables(p) && who in p.flights
    ensures OnDisk(Synced(p, who))
  {
    var q := Synced(p, who);
    forall k <- p.live | k.Own?
      ensures Tabled(q, k.e)
    {
      LiveIsFlushed(p, k.e);
    }
  }

  lemma EnteredNewer(p: Pool, s: Slot, u: Slot)
    requires Agree(p) && Outlived(p) && Has(p, u) && Single(At(p, u).of) && NewerOnDisk(p, u)
    ensures exists t <- Entered(p, s) :: Entered(p, s)[t].of == At(p, u).of && Entered(p, s)[t].gen > At(p, u).gen
  {
    var t :| t in p.table && p.table[t].of == At(p, u).of && p.table[t].gen > At(p, u).gen;
    if t == s && s !in p.mem {
      assert Doomed(p, s);
      var r :| r in p.table && p.table[r].of == At(p, s).of && p.table[r].gen > At(p, s).gen;
      assert r in Entered(p, s);
    } else {
      assert t in Entered(p, s);
    }
  }

  lemma TableEntryOutlived(p: Pool, slot: Slot)
    requires Tables(p)
    ensures Outlived(p.(table := Entered(p, slot)))
  {
    var q := p.(table := Entered(p, slot));
    forall s | Doomed(q, s) && Single(At(q, s).of)
      ensures NewerOnDisk(q, s)
    {
      assert Doomed(p, s) && At(p, s) == At(q, s);
      EnteredNewer(p, slot, s);
    }
  }

  lemma EnteredTabled(p: Pool, s: Slot, e: Extent)
    requires Agree(p) && Outlived(p) && Single(e) && Tabled(p, e)
    ensures exists t <- Entered(p, s) :: Entered(p, s)[t].of == e
  {
    var t :| t in p.table && p.table[t].of == e;
    if t == s && s !in p.mem {
      assert Doomed(p, s);
      EnteredNewer(p, s, s);
    } else {
      assert t in Entered(p, s);
    }
  }

  lemma TableEntryOnDisk(p: Pool, slot: Slot)
    requires Tables(p)
    ensures OnDisk(p.(table := Entered(p, slot)))
  {
    forall e: Extent | Single(e) && Tabled(p, e)
      ensures Tabled(p.(table := Entered(p, slot)), e)
    {
      EnteredTabled(p, slot, e);
    }
  }

  // ---------------------------------------------------------------- a restart

  /** The slot is one the entry of that key may name: its extent's own, or its ancestor's there. */
  predicate Rightful(p: Pool, t: Table, k: Key, s: Slot) {
    && s in t
    && (k.Leg? ==> t[s].of == k.e)
    && (k.Share? ==>
          t[s].of.volume != k.e.volume && t[s].of.volume in Kin(p.kin, k.e.volume) && t[s].of.index == k.e.index)
  }

  ghost predicate Named(p: Pool, t: Table, m: map<Key, Slot>) {
    forall k <- m :: !k.Own? ==> Rightful(p, t, k, m[k])
  }

  /** Every record a restart goes by names such a slot on disk. */
  ghost predicate Recorded(p: Pool) {
    Named(p, p.table, p.disk)
  }

  lemma {:induction false} LegsAt(m: map<Key, Slot>, e: Extent, j: nat, i: nat)
    requires i < |LegsFrom(m, e, j)|
    ensures Leg(e, j + i) in m && LegsFrom(m, e, j)[i] == m[Leg(e, j + i)]
    decreases i
  {
    if i > 0 {
      LegsAt(m, e, j + 1, i - 1);
    }
  }

  lemma RecordAt(p: Pool, e: Extent, i: nat)
    requires Recorded(p) && i < |RecordOf(p.disk, e)|
    requires Single(e) ==> Own(e) !in p.disk
    ensures RecordOf(p.disk, e)[i] in p.table
    ensures !Single(e) ==> Leg(e, i) in p.disk && RecordOf(p.disk, e)[i] == p.disk[Leg(e, i)]
    ensures Single(e) ==> i == 0 && Share(e) in p.disk && RecordOf(p.disk, e)[i] == p.disk[Share(e)]
  {
    if !Single(e) {
      LegsAt(p.disk, e, 0, i);
    }
  }

  /** An extent of one leg comes back at its newest slot on disk. */
  lemma TheNewestComesBack(p: Pool, known: set<Volume>, sealed: set<Volume>, e: Extent) returns (t: Slot)
    requires Agree(p) && Apart(p) && Shares(p) && Single(e) && Tabled(p, e)
    ensures t in Top(p.table, e) && Found(p, known, sealed, e) == [t] && Share(e) !in p.disk
    ensures var live := Restored(p, known, sealed); Own(e) in live && live[Own(e)] == t
  {
    var s :| s in p.table && p.table[s].of == e;
    assert s in Owned(p.table, e);
    TopExists(p.table, e);
    t :| t in Top(p.table, e);
    TablesApart(p, e);
    TheNewestIsTaken(WorldOf(p, known, sealed), p.table, e, RecordOf(p.disk, e), t);
    NotShared(p, e, s);
    OwnComes(p, known, sealed, s);
  }

  lemma NotShared(p: Pool, e: Extent, s: Slot)
    requires Agree(p) && Shares(p) && s in p.table && p.table[s].of == e
    ensures Share(e) !in p.disk
  {
    assert Has(p, s) && At(p, s).of == e;
  }

  lemma OwnComes(p: Pool, known: set<Volume>, sealed: set<Volume>, s: Slot)
    requires s in p.table && Single(p.table[s].of) && Share(p.table[s].of) !in p.disk
    requires Found(p, known, sealed, p.table[s].of) != []
    ensures
      var k, live := Own(p.table[s].of), Restored(p, known, sealed);
      k in live && live[k] == Found(p, known, sealed, k.e)[0]
  {
    assert Own(p.table[s].of) in Candidates(p);
  }

  lemma TablesApart(p: Pool, e: Extent)
    requires Agree(p) && Apart(p) && Single(e)
    ensures Distinct(p.table, e)
  {
    forall u <- p.table, v <- p.table | u != v && p.table[u].of == e && p.table[v].of == e
      ensures p.table[u].gen != p.table[v].gen
    {
      assert Has(p, u) && Has(p, v);
    }
  }

  /** And comes back only if it has one. */
  lemma NothingElseComesBack(p: Pool, known: set<Volume>, sealed: set<Volume>, e: Extent)
    requires OnDisk(p) && Single(e) && Own(e) in Restored(p, known, sealed)
    ensures Tabled(p, e)
  {
    assert Share(e) !in p.disk && Found(p, known, sealed, e) != [];
    if Own(e) !in p.disk {
      FoundOffRecord(p, known, sealed, e);
    }
  }

  lemma FoundOffRecord(p: Pool, known: set<Volume>, sealed: set<Volume>, e: Extent)
    requires RecordOf(p.disk, e) == [] && Found(p, known, sealed, e) != []
    ensures Tabled(p, e)
  {
    var s :| s in Owned(p.table, e);
  }

  lemma CrashOrdered(p: Pool, known: set<Volume>, sealed: set<Volume>)
    requires Tables(p)
    ensures Agree(Do(p, Crash(known, sealed))) && Newest(Do(p, Crash(known, sealed)))
  {
    var q := Do(p, Crash(known, sealed));
    forall k <- q.live | k.Own?
      ensures Mapped(q, k.e)
    {
      NothingElseComesBack(p, known, sealed, k.e);
      var t := TheNewestComesBack(p, known, sealed, k.e);
    }
    forall s | Has(q, s) && Single(At(q, s).of)
      ensures Mapped(q, At(q, s).of) && Upto(q, s, q.live[Own(At(q, s).of)])
    {
      UptoTheNewest(p, known, sealed, s);
    }
  }

  lemma UptoTheNewest(p: Pool, known: set<Volume>, sealed: set<Volume>, s: Slot)
    requires Agree(p) && Apart(p) && Shares(p) && s in p.table && Single(p.table[s].of)
    ensures
      var e, live := p.table[s].of, Restored(p, known, sealed);
      && Own(e) in live && live[Own(e)] in p.table && p.table[live[Own(e)]].of == e
      && (s == live[Own(e)] || p.table[s].gen < p.table[live[Own(e)]].gen)
  {
    var e := p.table[s].of;
    var t := TheNewestComesBack(p, known, sealed, e);
    TablesApart(p, e);
    assert s in Owned(p.table, e) && t in Owned(p.table, e);
  }

  lemma CrashApart(p: Pool, known: set<Volume>, sealed: set<Volume>)
    requires Tables(p)
    ensures Apart(Do(p, Crash(known, sealed))) && Shares(Do(p, Crash(known, sealed)))
  {
    var q := Do(p, Crash(known, sealed));
    assert forall s :: Has(q, s) ==> Has(p, s) && At(q, s).of == At(p, s).of && At(q, s).gen == At(p, s).gen;
    assert forall e :: Unowned(p, e) ==> Unowned(q, e);
  }

  lemma CrashLasting(p: Pool, known: set<Volume>, sealed: set<Volume>)
    requires Tables(p)
    ensures Lasting(Do(p, Crash(known, sealed)))
  {
    var q := Do(p, Crash(known, sealed));
    forall k <- q.disk | k.Own?
      ensures k in q.live && Tabled(q, k.e)
    {
      var t := TheNewestComesBack(p, known, sealed, k.e);
    }
  }

  lemma ComesFromTheTable(p: Pool, known: set<Volume>, sealed: set<Volume>, k: Key)
    requires Tables(p) && Recorded(p) && k in Restored(p, known, sealed)
    ensures Restored(p, known, sealed)[k] in p.table
  {
    Brought(p, known, sealed, k);
    if k.Own? {
      NothingElseComesBack(p, known, sealed, k.e);
      var t := TheNewestComesBack(p, known, sealed, k.e);
      assert t in Owned(p.table, k.e);
    } else {
      FoundOnTheTable(p, known, sealed, k.e, Rank(k));
    }
  }

  lemma FoundOnTheTable(p: Pool, known: set<Volume>, sealed: set<Volume>, e: Extent, i: nat)
    requires Recorded(p) && (Single(e) ==> Own(e) !in p.disk) && i < |Found(p, known, sealed, e)|
    ensures Found(p, known, sealed, e)[i] in p.table
  {
    LocatedIs(WorldOf(p, known, sealed), p.table, e, RecordOf(p.disk, e));
    if Found(p, known, sealed, e) == RecordOf(p.disk, e) {
      RecordAt(p, e, i);
    }
  }

  lemma LowerLeg(p: Pool, e: Extent, leg: nat)
    requires InRows(p.disk) && Leg(e, leg) in Candidates(p) && leg > 0
    ensures Leg(e, leg - 1) in Candidates(p)
  {
    if Leg(e, leg) !in p.disk {
      var s, j :| s in p.table && 0 <= j < |p.table| && Leg(e, leg) == Leg(p.table[s].of, j);
      assert Leg(p.table[s].of, j - 1) == Leg(e, leg - 1);
    }
  }

  lemma RowsComeBack(p: Pool, known: set<Volume>, sealed: set<Volume>, e: Extent, leg: nat)
    requires InRows(p.disk) && Leg(e, leg) in Restored(p, known, sealed) && leg > 0
    ensures Leg(e, leg - 1) in Restored(p, known, sealed)
  {
    Brought(p, known, sealed, Leg(e, leg));
    LowerLeg(p, e, leg);
    Brings(p, known, sealed, Leg(e, leg - 1));
  }

  lemma Brought(p: Pool, known: set<Volume>, sealed: set<Volume>, k: Key)
    requires k in Restored(p, known, sealed)
    ensures k in Candidates(p) && Comes(p, k) && Rank(k) < |Found(p, known, sealed, k.e)|
    ensures Restored(p, known, sealed)[k] == Found(p, known, sealed, k.e)[Rank(k)]
  {
  }

  lemma Brings(p: Pool, known: set<Volume>, sealed: set<Volume>, k: Key)
    requires k in Candidates(p) && Comes(p, k) && Rank(k) < |Found(p, known, sealed, k.e)|
    ensures k in Restored(p, known, sealed) && Restored(p, known, sealed)[k] == Found(p, known, sealed, k.e)[Rank(k)]
  {
  }

  lemma CrashShaped(p: Pool, known: set<Volume>, sealed: set<Volume>)
    requires Tables(p) && Recorded(p)
    ensures Shaped(Do(p, Crash(known, sealed))) && Moving(Do(p, Crash(known, sealed)))
  {
    var q := Do(p, Crash(known, sealed));
    forall k <- q.live
      ensures q.live[k] in q.mem
      ensures Kind(k) && (k.Leg? && k.leg > 0 ==> Leg(k.e, k.leg - 1) in q.live) && (k.Own? ==> Share(k.e) !in q.live)
    {
      ComesFromTheTable(p, known, sealed, k);
      if k.Leg? && k.leg > 0 {
        RowsComeBack(p, known, sealed, k.e, k.leg);
      }
    }
  }

  // ---------------------------------------------------------------- every step

  lemma NoneNewOrdered(p: Pool, q: Pool)
    requires Ordered(p) && NoneNew(p, q) && Agree(q)
    ensures Ordered(q)
  {
    NewestKept(p, q);
    ApartKept(p, q);
    SharesKept(p, q);
  }

  lemma CreateLasting(p: Pool, key: Key, slot: Slot, data: Data, since: nat)
    requires Tables(p) && Enabled(p, Create(key, slot, data, since))
    ensures Lasting(Do(p, Create(key, slot, data, since)))
  {
    CreateTakes(p, key, slot, data, since);
    TakesLasting(p, Do(p, Create(key, slot, data, since)), slot);
  }

  lemma CreateKeeps(p: Pool, key: Key, slot: Slot, data: Data, since: nat)
    requires Tables(p) && Enabled(p, Create(key, slot, data, since))
    ensures Tables(Do(p, Create(key, slot, data, since)))
  {
    CreateShaped(p, key, slot, data, since);
    CreateMoving(p, key, slot, data, since);
    CreateOrdered(p, key, slot, data, since);
    CreateApart(p, key, slot, data, since);
    CreateLasting(p, key, slot, data, since);
  }

  lemma CloneKeeps(p: Pool, of: Key, key: Key)
    requires Tables(p) && Enabled(p, Clone(of, key))
    ensures Tables(Do(p, Clone(of, key)))
  {
    var q := Do(p, Clone(of, key));
    CloneShaped(p, of, key);
    CloneMoving(p, of, key);
    CloneOrdered(p, of, key);
    NewestKept(p, q);
    ApartKept(p, q);
    CloneShares(p, of, key);
    CloneLasting(p, of, key);
  }

  lemma WriteKeeps(p: Pool, key: Key, data: Data)
    requires Tables(p) && Enabled(p, Write(key, data))
    ensures Tables(Do(p, Write(key, data)))
  {
    var q := Do(p, Write(key, data));
    WriteShaped(p, key, data);
    WriteMoving(p, key, data);
    WriteOrdered(p, key, data);
    NoneNewOrdered(p, q);
    WriteLasting(p, key, data);
  }

  lemma BeginMoveLasting(p: Pool, from: Slot, to: Slot)
    requires Tables(p) && Enabled(p, BeginMove(from, to))
    ensures Lasting(Do(p, BeginMove(from, to)))
  {
    BeginMoveTakes(p, from, to);
    TakesLasting(p, Do(p, BeginMove(from, to)), to);
  }

  lemma BeginMoveKeeps(p: Pool, from: Slot, to: Slot)
    requires Tables(p) && Enabled(p, BeginMove(from, to))
    ensures Tables(Do(p, BeginMove(from, to)))
  {
    BeginMoveShaped(p, from, to);
    BeginMoveMoving(p, from, to);
    BeginMoveOrdered(p, from, to);
    BeginMoveApart(p, from, to);
    BeginMoveLasting(p, from, to);
  }

  lemma GiveBackKeeps(p: Pool, from: Slot)
    requires Tables(p) && Enabled(p, GiveBack(from))
    ensures Tables(Do(p, GiveBack(from)))
  {
    var q := Do(p, GiveBack(from));
    GiveBackShaped(p, from);
    GiveBackMoving(p, from);
    GiveBackOrdered(p, from);
    NoneNewOrdered(p, q);
    GiveBackLasting(p, from);
  }

  lemma PublishKeeps(p: Pool, who: Mover, from: Slot)
    requires Tables(p) && Enabled(p, Publish(who, from))
    ensures Tables(Do(p, Publish(who, from)))
  {
    var q := Do(p, Publish(who, from));
    PublishShaped(p, who, from);
    PublishMoving(p, who, from);
    PublishOrdered(p, who, from);
    PublishApart(p, who, from);
    PublishLasting(p, who, from);
  }

  lemma PersistBeginKeeps(p: Pool, who: Mover, pay: set<Slot>)
    requires Tables(p) && Enabled(p, PersistBegin(who, pay))
    ensures Tables(Do(p, PersistBegin(who, pay)))
  {
    var q := Do(p, PersistBegin(who, pay));
    PersistBeginShaped(p, who, pay);
    PersistBeginMoving(p, who, pay);
    PersistBeginOrdered(p, who, pay);
    NoneNewOrdered(p, q);
    PersistBeginLasting(p, who, pay);
  }

  lemma SyncKeeps(p: Pool, who: Mover)
    requires Tables(p) && Enabled(p, Sync(who))
    ensures Tables(Do(p, Sync(who)))
  {
    var q := Do(p, Sync(who));
    SyncShaped(p, who);
    SyncMoving(p, who);
    EnteredIsRewritten(p, 0);
    RewrittenOrdered(p, q.table, q.flights);
    NoneNewOrdered(p, q);
    SyncOutlived(p, who);
    SyncOnDisk(p, who);
  }

  lemma PersistEndKeeps(p: Pool, who: Mover, how: Ending)
    requires Tables(p) && Enabled(p, PersistEnd(who, how))
    ensures Tables(Do(p, PersistEnd(who, how)))
  {
    var q := Do(p, PersistEnd(who, how));
    PersistEndShaped(p, who, how);
    PersistEndMoving(p, who, how);
    PersistEndOrdered(p, who, how);
    NoneNewOrdered(p, q);
    PersistEndOutlived(p, who, how);
    PersistEndOnDisk(p, who, how);
  }

  lemma ReleaseKeeps(p: Pool, slot: Slot)
    requires Tables(p) && Enabled(p, Release(slot))
    ensures Tables(Do(p, Release(slot)))
  {
    var q := Do(p, Release(slot));
    ReleaseShaped(p, slot);
    ReleaseMoving(p, slot);
    ReleaseOrdered(p, slot);
    NoneNewOrdered(p, q);
    ReleaseLasting(p, slot);
  }

  lemma TableEntryKeeps(p: Pool, slot: Slot)
    requires Tables(p) && Enabled(p, TableEntry(slot))
    ensures Tables(Do(p, TableEntry(slot)))
  {
    var q := Do(p, TableEntry(slot));
    TableEntryShaped(p, slot);
    TableEntryMoving(p, slot);
    EnteredIsRewritten(p, slot);
    RewrittenOrdered(p, q.table, p.flights);
    NoneNewOrdered(p, q);
    TableEntryOutlived(p, slot);
    TableEntryOnDisk(p, slot);
  }

  lemma StepKeeps(p: Pool, a: Step)
    requires Tables(p) && Enabled(p, a) && (a.Crash? ==> Recorded(p))
    ensures Tables(Do(p, a))
  {
    match a
    case Create(key, slot, data, since) => CreateKeeps(p, key, slot, data, since);
    case Clone(of, key) => CloneKeeps(p, of, key);
    case Write(key, data) => WriteKeeps(p, key, data);
    case BeginMove(from, to) => BeginMoveKeeps(p, from, to);
    case GiveBack(from) => GiveBackKeeps(p, from);
    case Publish(who, from) => PublishKeeps(p, who, from);
    case PersistBegin(who, pay) => PersistBeginKeeps(p, who, pay);
    case Sync(who) => SyncKeeps(p, who);
    case PersistEnd(who, how) => PersistEndKeeps(p, who, how);
    case Release(slot) => ReleaseKeeps(p, slot);
    case TableEntry(slot) => TableEntryKeeps(p, slot);
    case Crash(known, sealed) =>
      CrashShaped(p, known, sealed);
      CrashOrdered(p, known, sealed);
      CrashApart(p, known, sealed);
      CrashLasting(p, known, sealed);
  }
}
