/** What a restart reads (src/volume/mod.rs:4192-4251, src/rebuild.rs:445-479, src/placement/mod.rs:794-951):
    after any run of moves, persists and crashes, what is on record comes back, and what was written
    and flushed since is not lost with the records that do not have it. */
module Recovery {
  import opened Restart
  import opened Relocation
  import opened SlotTables
  import opened Records
  import opened Sets

  lemma EmptyIsSound(content: map<Slot, Data>)
    ensures Inv(Empty(content))
  {
  }

  lemma {:induction false} RunKeeps(p: Pool, h: seq<Step>)
    requires Inv(p) && Legal(p, h)
    ensures Inv(Run(p, h))
  {
    if h != [] {
      RunKeeps(p, h[..|h| - 1]);
      Records.StepKeeps(Run(p, h[..|h| - 1]), h[|h| - 1]);
    }
  }

  // ---------------------------------------------------------------- what is on record

  /** The legs below one on record are on record too. */
  lemma {:induction false} LegBelow(m: map<Key, Slot>, e: Extent, i: nat, j: nat)
    requires InRows(m) && Leg(e, j) in m && i <= j
    ensures Leg(e, i) in m
    decreases j - i
  {
    if i < j {
      LegBelow(m, e, i + 1, j);
    }
  }

  function Legs(e: Extent, n: nat): (r: set<Key>)
    ensures |r| == n && forall k <- r :: k.Leg? && k.leg < n
    ensures forall i: nat :: i < n ==> Leg(e, i) in r
    ensures forall k <- r :: k.e == e
  {
    if n == 0 then {} else Legs(e, n - 1) + {Leg(e, n - 1)}
  }

  /** There are at least as many entries as legs. */
  lemma LegsAreCounted(m: map<Key, Slot>, e: Extent, j: nat)
    requires InRows(m) && Leg(e, j) in m
    ensures j < |m.Keys|
  {
    forall k <- Legs(e, j + 1)
      ensures k in m.Keys
    {
      LegBelow(m, e, k.leg, j);
    }
    SubsetSize(Legs(e, j + 1), m.Keys);
  }

  lemma {:induction false} EveryLegIsRead(m: map<Key, Slot>, e: Extent, i: nat, j: nat)
    requires InRows(m) && Leg(e, j) in m && i <= j
    ensures j - i < |LegsFrom(m, e, i)|
    decreases j - i
  {
    LegBelow(m, e, i, j);
    LegsAreCounted(m, e, j);
    if i < j {
      EveryLegIsRead(m, e, i + 1, j);
    }
  }

  /** A restart goes by what is on record of a mirrored extent. */
  ghost predicate RecordStands(t: Table, m: map<Key, Slot>, e: Extent) {
    RecordOf(m, e) != [] && Top(t, e) != {} && RecordIsTaken(t, e, RecordOf(m, e))
  }

  ghost predicate TakesTheRecord(p: Pool, e: Extent) {
    RecordStands(p.table, p.disk, e)
  }

  lemma SameLeg(m: map<Key, Slot>, n: map<Key, Slot>, e: Extent, i: nat)
    requires InRows(n) && i < |LegsFrom(m, e, 0)|
    requires forall j: nat :: Leg(e, j) in m ==> Leg(e, j) in n && m[Leg(e, j)] == n[Leg(e, j)]
    ensures i < |LegsFrom(n, e, 0)| && LegsFrom(m, e, 0)[i] == LegsFrom(n, e, 0)[i]
  {
    LegsAt(m, e, 0, i);
    EveryLegIsRead(n, e, 0, i);
    LegsAt(n, e, 0, i);
  }

  /** The record of an extent is its legs'. */
  lemma SameRecord(m: map<Key, Slot>, n: map<Key, Slot>, e: Extent)
    requires InRows(m) && InRows(n) && forall k: Key :: k.e == e ==> (k in m <==> k in n) && (k in m ==> m[k] == n[k])
    ensures RecordOf(m, e) == RecordOf(n, e)
  {
    var a, b := LegsFrom(m, e, 0), LegsFrom(n, e, 0);
    assert forall j: nat :: Leg(e, j).e == e;
    forall i: nat | i < |a|
      ensures i < |b| && a[i] == b[i]
    {
      SameLeg(m, n, e, i);
    }
    if |a| < |b| {
      SameLeg(n, m, e, |a|);
    }
    if |a| > 0 {
      SameLeg(m, n, e, |a| - 1);
    }
  }

  /** What a restart finds of what is on record, from the invariant alone: a share, and each leg of
      a mirrored extent whose record it takes, in its slot, holding what was saved of it; a leg of
      another mirrored extent in a newer slot of that extent; and an extent of one leg in its
      newest slot on disk. */
  ghost predicate ComesBack(p: Pool, r: Pool, k: Key)
    requires k in p.disk
  {
    match k
    case Own(e) =>
      && k in r.live && r.live[k] in r.mem && r.mem[r.live[k]].of == e
      && forall s <- p.table :: p.table[s].of == e ==> p.table[s].gen <= r.mem[r.live[k]].gen
    case Share(e) => ReadsSaved(p, r, k)
    case Leg(e, _) =>
      if TakesTheRecord(p, e) then ReadsSaved(p, r, k)
      else Leg(e, 0) in r.live && r.live[Leg(e, 0)] in r.mem && r.mem[r.live[Leg(e, 0)]].of == e
  }

  /** In an allocated slot that holds what was saved. */
  ghost predicate ReadsSaved(p: Pool, r: Pool, k: Key)
    requires k in p.disk
  {
    && k in r.live && r.live[k] == p.disk[k] && r.live[k] in r.mem && r.live[k] in r.content
    && k in p.saved && r.content[r.live[k]] == p.saved[k]
  }

  lemma FoundIsTheRecord(p: Pool, known: set<Volume>, sealed: set<Volume>, e: Extent)
    requires TakesTheRecord(p, e)
    ensures Found(p, known, sealed, e) == RecordOf(p.disk, e)
  {
    TopIsOwned(p.table, e);
  }

  lemma ALegIsFound(p: Pool, known: set<Volume>, sealed: set<Volume>, e: Extent, leg: nat)
    requires InRows(p.disk) && Leg(e, leg) in p.disk && TakesTheRecord(p, e)
    ensures var found := Found(p, known, sealed, e); leg < |found| && found[leg] == p.disk[Leg(e, leg)]
  {
    assert Kind(Leg(e, leg));
    EveryLegIsRead(p.disk, e, 0, leg);
    LegsAt(p.disk, e, 0, leg);
    FoundIsTheRecord(p, known, sealed, e);
  }

  lemma ALegOnRecord(p: Pool, known: set<Volume>, sealed: set<Volume>, e: Extent, leg: nat)
    requires InRows(p.disk) && Leg(e, leg) in p.disk && TakesTheRecord(p, e)
    ensures
      var k, live := Leg(e, leg), Restored(p, known, sealed);
      k in live && live[k] == p.disk[k]
  {
    ALegIsFound(p, known, sealed, e, leg);
    assert Kind(Leg(e, leg)) && Comes(p, Leg(e, leg));
    Brings(p, known, sealed, Leg(e, leg));
  }

  lemma TopIsOwned(t: Table, e: Extent)
    requires Top(t, e) != {}
    ensures Owned(t, e) != {}
  {
    var s :| s in Top(t, e);
    assert s in Owned(t, e);
  }

  lemma ALegElsewhere(p: Pool, known: set<Volume>, sealed: set<Volume>, e: Extent, leg: nat)
    requires Inv(p) && Leg(e, leg) in p.disk && !TakesTheRecord(p, e)
    ensures
      var live := Restored(p, known, sealed);
      Leg(e, 0) in live && live[Leg(e, 0)] in p.table && p.table[live[Leg(e, 0)]].of == e
  {
    LegBelow(p.disk, e, 0, leg);
    assert p.disk[Leg(e, 0)] in Owned(p.table, e);
    TopExists(p.table, e);
    var found := Found(p, known, sealed, e);
    assert found == Sorted(Top(p.table, e));
    var s :| s in Top(p.table, e);
    assert s in found;
    assert forall u <- found :: u in Top(p.table, e) && u in Owned(p.table, e);
    Brings(p, known, sealed, Leg(e, 0));
  }

  ghost predicate Restarted(p: Pool, known: set<Volume>, sealed: set<Volume>, r: Pool) {
    r.live == Restored(p, known, sealed) && r.mem == p.table && r.content == p.content
  }

  lemma AnExtentOfOneLegComesBack(p: Pool, known: set<Volume>, sealed: set<Volume>, r: Pool, e: Extent)
    requires Tables(p) && Own(e) in p.disk && Restarted(p, known, sealed, r)
    ensures ComesBack(p, r, Own(e))
  {
    var t := TheNewestComesBack(p, known, sealed, e);
    assert t in Owned(p.table, e);
    assert forall s <- p.table :: p.table[s].of == e ==> s in Owned(p.table, e);
  }

  lemma AMirrorComesBack(p: Pool, known: set<Volume>, sealed: set<Volume>, r: Pool, e: Extent, leg: nat)
    requires Inv(p) && Leg(e, leg) in p.disk && Restarted(p, known, sealed, r)
    ensures ComesBack(p, r, Leg(e, leg))
  {
    if TakesTheRecord(p, e) {
      ALegOnRecord(p, known, sealed, e, leg);
    } else {
      ALegElsewhere(p, known, sealed, e, leg);
    }
  }

  lemma AfterACrash(p: Pool, known: set<Volume>, sealed: set<Volume>, k: Key)
    requires Inv(p) && k in p.disk
    ensures ComesBack(p, Do(p, Crash(known, sealed)), k)
  {
    var r := Do(p, Crash(known, sealed));
    match k
    case Own(e) => AnExtentOfOneLegComesBack(p, known, sealed, r, e);
    case Share(e) => AShareComesBack(p, known, sealed, k);
    case Leg(e, leg) => AMirrorComesBack(p, known, sealed, r, e, leg);
  }

  /** Whatever moves, persists (failed or not), frees and crashes came before, nothing on record is
      dropped at a restart, and it reads what was saved of it wherever the restart goes by the record. */
  lemma RecoveryReadsWhatWasSaved(content: map<Slot, Data>, h: seq<Step>, known: set<Volume>, sealed: set<Volume>,
        k: Key)
    requires Legal(Empty(content), h) && k in Run(Empty(content), h).disk
    ensures var p := Run(Empty(content), h); Formed(p) && ComesBack(p, Do(p, Crash(known, sealed)), k)
  {
    EmptyIsSound(content);
    RunKeeps(Empty(content), h);
    AfterACrash(Run(Empty(content), h), known, sealed, k);
  }

  // ---------------------------------------------------------------- what is flushed

  /** At least as new as all of its extent on disk: one of these is found at a restart. */
  ghost predicate AsNew(p: Pool, e: Extent, s: Slot) {
    Has(p, s) && At(p, s).of == e && forall t <- p.table :: p.table[t].of == e ==> p.table[t].gen <= At(p, s).gen
  }

  /** Wherever the power goes, a restart reads this of the extent. */
  ghost predicate Survives(p: Pool, e: Extent, data: Data) {
    Own(e) in p.live && Tabled(p, e) && forall s :: AsNew(p, e, s) ==> s in p.content && p.content[s] == data
  }

  /** Bytes go into a slot of the extent. */
  predicate WritesTo(p: Pool, a: Step, e: Extent) {
    a.Write? && a.key in p.live && p.live[a.key] in p.mem && p.mem[p.live[a.key]].of == e
  }

  lemma NoneNewSurvives(p: Pool, q: Pool, e: Extent, data: Data)
    requires Survives(p, e, data) && Own(e) in q.live && Tabled(q, e)
    requires forall s :: AsNew(q, e, s) ==> AsNew(p, e, s) && s in q.content && q.content[s] == p.content[s]
    ensures Survives(q, e, data)
  {
  }

  /** The slot it is mapped to is as new as any. */
  lemma LiveIsAsNew(p: Pool, e: Extent)
    requires Tables(p) && Single(e) && Own(e) in p.live
    ensures AsNew(p, e, p.live[Own(e)])
    ensures forall s :: Has(p, s) && At(p, s).of == e && !Copying(p, s) ==>
      s == p.live[Own(e)] || At(p, s).gen < p.mem[p.live[Own(e)]].gen
  {
    assert Mapped(p, e);
    forall t <- p.table | p.table[t].of == e
      ensures p.table[t].gen <= p.mem[p.live[Own(e)]].gen
    {
      assert Has(p, t);
    }
  }

  /** Tables stay, and no slot of the extent is new or written. */
  ghost predicate LeavesAlone(p: Pool, q: Pool, e: Extent) {
    && q.table == p.table && (Own(e) in p.live ==> Own(e) in q.live)
    && forall s :: Has(q, s) && At(q, s).of == e ==>
         Has(p, s) && At(p, s).of == e && At(q, s).gen == At(p, s).gen &&
           (s in p.content ==> s in q.content && q.content[s] == p.content[s])
  }

  lemma LeftAloneSurvives(p: Pool, q: Pool, e: Extent, data: Data)
    requires Survives(p, e, data) && LeavesAlone(p, q, e)
    ensures Survives(q, e, data)
  {
    forall s | AsNew(q, e, s)
      ensures AsNew(p, e, s) && s in q.content && q.content[s] == p.content[s]
    {
    }
    NoneNewSurvives(p, q, e, data);
  }

  lemma FewerLeavesAlone(p: Pool, q: Pool, e: Extent)
    requires Agree(p) && q.live == p.live && q.table == p.table && q.content == p.content
    requires forall s <- q.mem :: s in p.mem && q.mem[s] == p.mem[s]
    ensures LeavesAlone(p, q, e)
  {
  }

  lemma FreesLeaveAlone(p: Pool, a: Step, e: Extent)
    requires Formed(p) && Agree(p) && Enabled(p, a) && (a.Release? || a.GiveBack?)
    ensures LeavesAlone(p, Do(p, a), e)
  {
    FewerLeavesAlone(p, Do(p, a), e);
  }

  lemma EndLeavesAlone(p: Pool, who: Mover, how: Ending, e: Extent)
    requires Formed(p) && Agree(p) && who in p.flights
    ensures LeavesAlone(p, End(p, who, how), e)
  {
    FewerLeavesAlone(p, End(p, who, how), e);
  }

  lemma PersistsLeaveAlone(p: Pool, a: Step, e: Extent)
    requires Formed(p) && Agree(p) && Enabled(p, a) && (a.PersistBegin? || a.PersistEnd?)
    ensures LeavesAlone(p, Do(p, a), e)
  {
    if a.PersistBegin? {
      FewerLeavesAlone(p, Begun(p, a.who, a.pay), e);
    } else {
      EndLeavesAlone(p, a.who, a.how, e);
    }
  }

  lemma WritesLeaveAlone(p: Pool, a: Step, e: Extent)
    requires Formed(p) && Enabled(p, a) && a.Write? && !WritesTo(p, a, e)
    ensures LeavesAlone(p, Do(p, a), e)
  {
    var q := Do(p, a);
    assert q.mem == p.mem && q.table == p.table && q.live == p.live;
    forall s | Has(q, s) && At(q, s).of == e && s in p.content
      ensures s in q.content && q.content[s] == p.content[s]
    {
      assert p.live[a.key] in p.mem;
      assert s != p.live[a.key];
    }
  }

  lemma CreatesLeaveAlone(p: Pool, a: Step, e: Extent)
    requires Formed(p) && Enabled(p, a) && a.Create? && Single(e) && Own(e) in p.live
    ensures LeavesAlone(p, Do(p, a), e)
  {
  }

  lemma ClonesLeaveAlone(p: Pool, of: Key, key: Key, e: Extent)
    requires Clonable(p, of, key)
    ensures LeavesAlone(p, Cloned(p, of, key), e)
  {
  }

  lemma PublishLeavesAlone(p: Pool, who: Mover, from: Slot, e: Extent)
    requires Enabled(p, Publish(who, from))
    ensures LeavesAlone(p, Published(p, who, from), e)
  {
  }

  predicate Plain(a: Step) {
    !a.BeginMove? && !a.Sync? && !a.TableEntry? && !a.Crash?
  }

  lemma PlainSurvives(p: Pool, a: Step, e: Extent, data: Data)
    requires Tables(p) && Enabled(p, a) && Single(e) && Survives(p, e, data) && !WritesTo(p, a, e) && Plain(a)
    ensures Survives(Do(p, a), e, data)
  {
    match a {
      case Create(_, _, _, _) => CreatesLeaveAlone(p, a, e);
      case Write(_, _) => WritesLeaveAlone(p, a, e);
      case Clone(of, key) => ClonesLeaveAlone(p, of, key, e);
      case Publish(who, from) => PublishLeavesAlone(p, who, from, e);
      case GiveBack(_) => FreesLeaveAlone(p, a, e);
      case Release(_) => FreesLeaveAlone(p, a, e);
      case PersistBegin(_, _) => PersistsLeaveAlone(p, a, e);
      case PersistEnd(_, _) => PersistsLeaveAlone(p, a, e);
    }
    LeftAloneSurvives(p, Do(p, a), e, data);
  }

  lemma BeginMoveSurvives(p: Pool, from: Slot, to: Slot, e: Extent, data: Data)
    requires Tables(p) && Single(e) && Survives(p, e, data) && Enabled(p, BeginMove(from, to))
    ensures Survives(Do(p, BeginMove(from, to)), e, data)
  {
    var q := Do(p, BeginMove(from, to));
    LiveIsAsNew(p, e);
    forall s | AsNew(q, e, s)
      ensures s in q.content && q.content[s] == data
    {
      assert s != to ==> AsNew(p, e, s);
    }
    assert Tabled(q, e);
  }

  lemma SyncSurvives(p: Pool, who: Mover, e: Extent)
    requires Tables(p) && Single(e) && who in p.flights && Own(e) in p.live && p.live[Own(e)] in p.content
    ensures Survives(Synced(p, who), e, p.content[p.live[Own(e)]])
  {
    var q := Synced(p, who);
    assert Mapped(p, e);
    LiveIsFlushed(p, e);
    forall s | AsNew(q, e, s)
      ensures s in q.content && q.content[s] == p.content[p.live[Own(e)]]
    {
      NoNewer(p, e, s);
    }
  }

  /** What is as new as the mapped slot is that slot, or its copy. */
  lemma NoNewer(p: Pool, e: Extent, s: Slot)
    requires Tables(p) && Mapped(p, e) && Single(e) && Has(p, s) && At(p, s).of == e
    requires At(p, s).gen >= p.mem[p.live[Own(e)]].gen
    ensures s in p.content && p.live[Own(e)] in p.content && p.content[s] == p.content[p.live[Own(e)]]
  {
    if Copying(p, s) {
      var f :| f in p.moving && p.moving[f] == s;
      assert Copy(p, f, s);
    }
  }

  lemma EntrySurvives(p: Pool, e: Extent)
    requires Tables(p) && Single(e) && Own(e) in p.live && p.live[Own(e)] in p.content
    ensures Survives(p.(table := Entered(p, p.live[Own(e)])), e, p.content[p.live[Own(e)]])
  {
    var t := p.live[Own(e)];
    var q := p.(table := Entered(p, t));
    assert Mapped(p, e);
    LiveIsFlushed(p, e);
    assert q.table[t] == p.mem[t];
    forall s | AsNew(q, e, s)
      ensures s in q.content && q.content[s] == p.content[t]
    {
      NoNewer(p, e, s);
    }
  }

  /** Removing an entry leaves a newer one. */
  lemma TableEntrySurvives(p: Pool, slot: Slot, e: Extent, data: Data)
    requires Tables(p) && Single(e) && Survives(p, e, data)
    ensures Survives(p.(table := Entered(p, slot)), e, data)
  {
    var q := p.(table := Entered(p, slot));
    EnteredTabled(p, slot, e);
    forall s | AsNew(q, e, s)
      ensures AsNew(p, e, s)
    {
      AsNewBefore(p, slot, e, s);
    }
  }

  lemma AsNewBefore(p: Pool, slot: Slot, e: Extent, s: Slot)
    requires Tables(p) && Single(e) && AsNew(p.(table := Entered(p, slot)), e, s)
    ensures AsNew(p, e, s)
  {
    var q := p.(table := Entered(p, slot));
    forall t <- p.table | p.table[t].of == e
      ensures p.table[t].gen <= At(p, s).gen
    {
      if t == slot && t !in p.mem && !Copying(p, slot) {
        assert Doomed(p, t);
        EnteredNewer(p, slot, t);
        var r :| r in q.table && q.table[r].of == e && q.table[r].gen > p.table[t].gen;
      } else {
        assert t in q.table && q.table[t].of == e && q.table[t].gen == p.table[t].gen;
      }
    }
  }

  lemma CrashSurvives(p: Pool, known: set<Volume>, sealed: set<Volume>, e: Extent, data: Data)
    requires Tables(p) && Single(e) && Survives(p, e, data)
    ensures
      var r := Do(p, Crash(known, sealed));
      Survives(r, e, data) && r.live[Own(e)] in r.content && r.content[r.live[Own(e)]] == data
  {
    RestartSurvives(p, known, sealed, Do(p, Crash(known, sealed)), e, data);
  }

  lemma RestartSurvives(p: Pool, known: set<Volume>, sealed: set<Volume>, r: Pool, e: Extent, data: Data)
    requires Tables(p) && Single(e) && Survives(p, e, data) && Restarted(p, known, sealed, r) && r.table == p.table
    ensures Survives(r, e, data) && r.live[Own(e)] in r.content && r.content[r.live[Own(e)]] == data
  {
    var t := TheNewestComesBack(p, known, sealed, e);
    TopIsAsNew(p, e, t);
    forall s | AsNew(r, e, s)
      ensures AsNew(p, e, s)
    {
      assert s in p.table && Has(p, s);
    }
  }

  lemma TopIsAsNew(p: Pool, e: Extent, t: Slot)
    requires Agree(p) && t in Top(p.table, e)
    ensures AsNew(p, e, t)
  {
    assert t in Owned(p.table, e);
    assert forall s <- p.table :: p.table[s].of == e ==> s in Owned(p.table, e);
  }

  /** Every step but a write to it keeps it so, whatever the persists come to. */
  lemma StepSurvives(p: Pool, a: Step, e: Extent, data: Data)
    requires Tables(p) && Enabled(p, a) && Single(e) && Survives(p, e, data) && !WritesTo(p, a, e)
    ensures Survives(Do(p, a), e, data)
  {
    if a.BeginMove? {
      BeginMoveSurvives(p, a.from, a.to, e, data);
    } else if a.Sync? {
      LiveIsAsNew(p, e);
      SyncSurvives(p, a.who, e);
    } else if a.TableEntry? {
      TableEntrySurvives(p, a.slot, e, data);
    } else if a.Crash? {
      CrashSurvives(p, a.known, a.sealed, e, data);
    } else {
      PlainSurvives(p, a, e, data);
    }
  }

  /** The run writes nothing to the extent. */
  ghost predicate NoWrites(p: Pool, h: seq<Step>, e: Extent)
    requires Legal(p, h)
  {
    h == [] || (NoWrites(p, h[..|h| - 1], e) && !WritesTo(Run(p, h[..|h| - 1]), h[|h| - 1], e))
  }

  /** A flush that reaches the extent's slot: a persist's of every slab, or its own. */
  ghost predicate Flushes(p: Pool, a: Step, e: Extent) {
    a.Sync? || (Own(e) in p.live && a == TableEntry(p.live[Own(e)]))
  }

  lemma FlushMakesItSurvive(p: Pool, a: Step, e: Extent)
    requires Inv(p) && Enabled(p, a) && Flushes(p, a, e) && Single(e) && Own(e) in p.live
    ensures p.live[Own(e)] in p.content && Survives(Do(p, a), e, p.content[p.live[Own(e)]])
  {
    if a.Sync? {
      SyncSurvives(p, a.who, e);
    } else {
      EntrySurvives(p, e);
    }
  }

  lemma {:induction false} RunSurvives(p: Pool, h: seq<Step>, e: Extent, data: Data)
    requires Inv(p) && Legal(p, h) && Single(e) && Survives(p, e, data) && NoWrites(p, h, e)
    ensures Inv(Run(p, h)) && Survives(Run(p, h), e, data)
  {
    if h != [] {
      var less := h[..|h| - 1];
      RunSurvives(p, less, e, data);
      Records.StepKeeps(Run(p, less), h[|h| - 1]);
      StepSurvives(Run(p, less), h[|h| - 1], e, data);
    }
  }

  /** What an extent of one leg holds when it is flushed, moved since its record was written or not,
      is what it reads after any run that writes nothing to it and however often the power goes. */
  lemma AFlushedWriteSurvives(p: Pool, flush: Step, h: seq<Step>, known: set<Volume>, sealed: set<Volume>, e: Extent)
    requires Inv(p) && Enabled(p, flush) && Flushes(p, flush, e) && Single(e) && Own(e) in p.live
    requires Legal(Do(p, flush), h) && NoWrites(Do(p, flush), h, e) && Formed(Run(Do(p, flush), h))
    ensures
      var r := Do(Run(Do(p, flush), h), Crash(known, sealed));
      && Own(e) in r.live && r.live[Own(e)] in r.content && p.live[Own(e)] in p.content
      && r.content[r.live[Own(e)]] == p.content[p.live[Own(e)]]
  {
    var q, data := Do(p, flush), p.content[p.live[Own(e)]];
    FlushMakesItSurvive(p, flush, e);
    Records.StepKeeps(p, flush);
    RunSurvives(q, h, e, data);
    CrashSurvives(Run(q, h), known, sealed, e, data);
  }

  // ---------------------------------------------------------------- what each step leaves

  /** Saved content changes only by a write to the slot on record, or by a persist that reached the
      disk, which saves what its records name. */
  lemma SavedChangesOnlyByWritesAndPersists(p: Pool, a: Step, k: Key)
    requires Formed(p) && Saved(p) && Generations(p) && Enabled(p, a) && k in p.saved
    ensures
      || (a.Write? && p.disk[k] == p.live[a.key])
      || (a.PersistEnd? && a.how.Wrote? && p.last < p.flights[a.who].gen &&
          (k.e in a.how.part || Whole(p.flights[a.who], a.how.part)))
      || (k in Do(p, a).saved && Do(p, a).saved[k] == p.saved[k])
  {
  }

  /** A move changes no byte any volume reads; neither does anything else but a write to the
      extent, or a crash. */
  lemma NothingElseChangesWhatIsRead(p: Pool, a: Step, k: Key)
    requires Formed(p) && Copies(p) && Enabled(p, a) && k in p.live && !a.Crash? && !(a.Write? && a.key == k)
    ensures
      var q := Do(p, a);
      k in q.live && q.live[k] in q.content && q.content[q.live[k]] == p.content[p.live[k]]
  {
    if a.Publish? {
      assert Copy(p, a.from, p.moving[a.from]);
    }
  }

  /** A slot is freed only when no map names it, no record that a restart could still go by does, and
      an extent of one leg has a newer one on disk. */
  lemma FreedOnlyWhenNothingNeedsIt(p: Pool, slot: Slot)
    requires Inv(p) && Enabled(p, Release(slot))
    ensures slot in p.mem && Unnamed(p.live, slot) && Unrecorded(p.disk, slot)
    ensures forall who <- p.flights :: p.flights[who].gen > p.last ==> Unrecorded(p.flights[who].records, slot)
    ensures Single(p.mem[slot].of) ==>
      exists t <- p.table :: p.table[t].of == p.mem[slot].of && p.table[t].gen > p.mem[slot].gen
  {
    assert Gone(p, slot) && Doomed(p, slot);
  }

  // ---------------------------------------------------------------- what was written is read

  /** Bytes are stored under a key: written in place, or with a new slot. */
  ghost predicate Stores(a: Step, k: Key, data: Data) {
    a == Write(k, data) || (a.Create? && a.key == k && a.data == data)
  }

  /** What a step stores is read after it; and a clone reads what it was cloned from. */
  lemma WhatIsStoredIsRead(p: Pool, a: Step, k: Key, data: Data)
    requires Formed(p) && Enabled(p, a)
    ensures
      var q := Do(p, a);
      && (Stores(a, k, data) ==> k in q.live && q.live[k] in q.content && q.content[q.live[k]] == data)
      && (a.Clone? && a.key == k ==> k in q.live && q.live[k] == p.live[a.of] && q.live[k] in q.content)
      && (a.Clone? && a.key == k ==>
            p.live[a.of] in p.content && q.content[q.live[k]] == p.content[p.live[a.of]])
  {
  }

  ghost predicate NoneStored(h: seq<Step>, k: Key) {
    forall a <- h :: !a.Crash? && !(a.Write? && a.key == k)
  }

  lemma {:induction false} ReadStays(p: Pool, h: seq<Step>, k: Key)
    requires Inv(p) && Legal(p, h) && NoneStored(h, k) && k in p.live
    ensures Inv(Run(p, h))
    ensures
      var q := Run(p, h);
      && k in q.live && q.live[k] in q.content && p.live[k] in p.content
      && q.content[q.live[k]] == p.content[p.live[k]]
  {
    if h != [] {
      var less, a := h[..|h| - 1], h[|h| - 1];
      assert a in h && forall b <- less :: b in h;
      ReadStays(p, less, k);
      Records.StepKeeps(Run(p, less), a);
      NothingElseChangesWhatIsRead(Run(p, less), a, k);
    }
  }

  /** Until the power goes, what was stored last under a key is what is read, whatever is moved,
      persisted and freed meanwhile. */
  lemma TheLastWriteIsRead(p: Pool, a: Step, h: seq<Step>, k: Key, data: Data)
    requires Inv(p) && Enabled(p, a) && Stores(a, k, data) && Legal(Do(p, a), h) && NoneStored(h, k)
    ensures Inv(Run(Do(p, a), h))
    ensures
      var q := Run(Do(p, a), h);
      k in q.live && q.live[k] in q.content && q.content[q.live[k]] == data
  {
    Records.StepKeeps(p, a);
    WhatIsStoredIsRead(p, a, k, data);
    ReadStays(Do(p, a), h, k);
  }

  /** And what was stored in an extent of one leg, and flushed before anything else was, is read
      after any run that writes nothing to it and however often the power goes. */
  lemma AStoredAndFlushedIsRead(p: Pool, a: Step, before: seq<Step>, flush: Step, h: seq<Step>, known: set<Volume>,
        sealed: set<Volume>, e: Extent, data: Data)
    requires Inv(p) && Enabled(p, a) && Stores(a, Own(e), data) && Single(e)
    requires Legal(Do(p, a), before) && NoneStored(before, Own(e)) && Inv(Run(Do(p, a), before))
    requires Enabled(Run(Do(p, a), before), flush) && Flushes(Run(Do(p, a), before), flush, e)
    requires
      var q := Do(Run(Do(p, a), before), flush);
      Legal(q, h) && NoWrites(q, h, e) && Formed(Run(q, h))
    ensures
      var r := Do(Run(Do(Run(Do(p, a), before), flush), h), Crash(known, sealed));
      Own(e) in r.live && r.live[Own(e)] in r.content && r.content[r.live[Own(e)]] == data
  {
    TheLastWriteIsRead(p, a, before, Own(e), data);
    AFlushedWriteSurvives(Run(Do(p, a), before), flush, h, known, sealed, e);
  }

  // ---------------------------------------------------------------- how many maps share a slot

  ghost function Sharers(m: map<Key, Slot>, s: Slot): set<Key> {
    set k | k in m && m[k] == s
  }

  /** The count kept beside each slot that a map names is the number of entries that name it. */
  ghost predicate SharesCounted(p: Pool) {
    forall k <- p.live :: p.live[k] in p.mem && p.mem[p.live[k]].refs == |Sharers(p.live, p.live[k])|
  }

  lemma CreateCounts(p: Pool, key: Key, slot: Slot, data: Data, since: nat)
    requires Formed(p) && Enabled(p, Create(key, slot, data, since)) && SharesCounted(p)
    ensures SharesCounted(Do(p, Create(key, slot, data, since)))
  {
    var q := Do(p, Create(key, slot, data, since));
    forall k <- q.live ensures q.live[k] in q.mem && q.mem[q.live[k]].refs == |Sharers(q.live, q.live[k])| {
      if k == key {
        assert Sharers(q.live, slot) == {key};
      } else {
        assert Sharers(q.live, q.live[k]) == Sharers(p.live, p.live[k]);
      }
    }
  }

  lemma CloneCounts(p: Pool, of: Key, key: Key)
    requires Formed(p) && Enabled(p, Clone(of, key)) && SharesCounted(p)
    ensures SharesCounted(Do(p, Clone(of, key)))
  {
    var q, s := Do(p, Clone(of, key)), p.live[of];
    forall k <- q.live ensures q.live[k] in q.mem && q.mem[q.live[k]].refs == |Sharers(q.live, q.live[k])| {
      if q.live[k] == s {
        assert Sharers(q.live, s) == Sharers(p.live, s) + {key};
      } else {
        assert Sharers(q.live, q.live[k]) == Sharers(p.live, p.live[k]);
      }
    }
  }

  lemma PublishCounts(p: Pool, who: Mover, from: Slot)
    requires Formed(p) && Copies(p) && Enabled(p, Publish(who, from)) && SharesCounted(p)
    ensures SharesCounted(Do(p, Publish(who, from)))
  {
    var q, to := Do(p, Publish(who, from)), p.moving[from];
    assert Copy(p, from, to);
    forall k <- q.live ensures q.live[k] in q.mem && q.mem[q.live[k]].refs == |Sharers(q.live, q.live[k])| {
      if p.live[k] == from {
        assert Sharers(q.live, to) == Sharers(p.live, from);
      } else {
        assert Sharers(q.live, q.live[k]) == Sharers(p.live, p.live[k]);
      }
    }
  }

  lemma OtherStepsCount(p: Pool, a: Step)
    requires Formed(p) && Copies(p) && Debited(p) && Enabled(p, a) && SharesCounted(p)
    requires !a.Create? && !a.Clone? && !a.Publish? && !a.Crash?
    ensures SharesCounted(Do(p, a))
  {
    if a.GiveBack? {
      assert Copy(p, a.from, p.moving[a.from]);
    }
  }

  /** A copy takes the count over with the entries, and nothing else but a clone changes one. */
  lemma StepCountsShares(p: Pool, a: Step)
    requires Formed(p) && Copies(p) && Debited(p) && Enabled(p, a) && !a.Crash? && SharesCounted(p)
    ensures SharesCounted(Do(p, a))
  {
    match a
    case Create(key, slot, data, since) => CreateCounts(p, key, slot, data, since);
    case Clone(of, key) => CloneCounts(p, of, key);
    case Publish(who, from) => PublishCounts(p, who, from);
    case _ => OtherStepsCount(p, a);
  }

  /** So the counts are right until the power goes, however the slots were shared and moved. */
  lemma {:induction false} SharesAreCounted(p: Pool, h: seq<Step>)
    requires Inv(p) && SharesCounted(p) && Legal(p, h) && forall a <- h :: !a.Crash?
    ensures Inv(Run(p, h)) && SharesCounted(Run(p, h))
  {
    if h != [] {
      var less, a := h[..|h| - 1], h[|h| - 1];
      assert a in h && forall b <- less :: b in h;
      SharesAreCounted(p, less);
      Records.StepKeeps(Run(p, less), a);
      StepCountsShares(Run(p, less), a);
    }
  }
}
