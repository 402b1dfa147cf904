/** What a restart loses when a slot is freed that it has need of: an extent a volume shares with
    its ancestor is dropped, one of one leg goes back to an older copy or is dropped, and a mirror's
    leg reads another extent's bytes (src/volume/mod.rs:4492-4625, src/volume/gem.rs:1158-1217). */
module Losses {
  import opened Restart
  import opened Relocation
  import opened SlotTables
  import opened Records
  import opened Recovery
  import opened FailedPersists

  /** The power goes at the end, and nothing writes meanwhile, nor creates what the key is of. */
  ghost predicate EndsInACrash(q: Pool, h: seq<Step>, k: Key) {
    && Legal(q, h) && h != [] && h[|h| - 1].Crash?
    && forall a <- h :: Harmless(a, k)
  }

  ghost predicate Drops(q: Pool, h: seq<Step>, k: Key) {
    EndsInACrash(q, h, k) && k !in Run(q, h).live
  }

  ghost predicate ReadsAnothers(q: Pool, h: seq<Step>, k: Key, data: Data) {
    EndsInACrash(q, h, k) && var r := Run(q, h); k in r.live && r.live[k] in r.content && r.content[r.live[k]] == data
  }

  /** The extent is not found in a slot of its own of that generation, or a later one. */
  ghost predicate GoesBack(q: Pool, h: seq<Step>, e: Extent, gen: nat) {
    && EndsInACrash(q, h, Own(e))
    && var r := Run(q, h);
       Own(e) in r.live && r.live[Own(e)] in r.mem && r.mem[r.live[Own(e)]].of == e ==> r.mem[r.live[Own(e)]].gen < gen
  }

  predicate Harmless(a: Step, k: Key) {
    !a.Write? && !a.Clone? && !(a.Create? && a.key == k)
  }

  /** A slot that may be freed at any time. */
  ghost predicate DueSlot(q: Pool, s: Slot) {
    Formed(q) && s in q.debt && q.debt[s].Due? && s in q.mem && Unnamed(q.live, s) && !Copying(q, s)
  }

  /** It is freed, and its entry leaves the disk. */
  function Freeing(s: Slot): seq<Step> {
    [Release(s), TableEntry(s)]
  }

  function Freed(q: Pool, s: Slot): Pool {
    q.(mem := q.mem - {s}, debt := q.debt - {s}, table := q.table - {s})
  }

  lemma Frees(q: Pool, s: Slot)
    requires DueSlot(q, s)
    ensures Legal(q, Freeing(s)) && Run(q, Freeing(s)) == Freed(q, s) && Formed(Freed(q, s))
  {
    assert !Copying(Released(q, s), s);
    Two(q, Release(s), TableEntry(s));
  }

  function FreeingThenCrash(s: Slot, known: set<Volume>, sealed: set<Volume>): seq<Step> {
    Freeing(s) + [Crash(known, sealed)]
  }

  lemma FreesThenCrashes(q: Pool, s: Slot, known: set<Volume>, sealed: set<Volume>, k: Key)
    requires DueSlot(q, s)
    ensures EndsInACrash(q, FreeingThenCrash(s, known, sealed), k)
    ensures Restarted(Freed(q, s), known, sealed, Run(q, FreeingThenCrash(s, known, sealed)))
  {
    Frees(q, s);
    ThenCrashes(q, Freeing(s), known, sealed, k);
  }

  lemma ThenCrashes(q: Pool, h: seq<Step>, known: set<Volume>, sealed: set<Volume>, k: Key)
    requires Legal(q, h) && Formed(Run(q, h)) && forall a <- h :: Harmless(a, k)
    ensures EndsInACrash(q, h + [Crash(known, sealed)], k)
    ensures Restarted(Run(q, h), known, sealed, Run(q, h + [Crash(known, sealed)]))
  {
    OneStep(q, h, Crash(known, sealed));
  }

  lemma ThenEndsInACrash(q: Pool, a: seq<Step>, b: seq<Step>, k: Key)
    requires Legal(q, a) && EndsInACrash(Run(q, a), b, k) && forall x <- a :: Harmless(x, k)
    ensures EndsInACrash(q, a + b, k) && Run(q, a + b) == Run(Run(q, a), b)
  {
    RunConcat(q, a, b);
  }

  // ---------------------------------------------------------------- what a restart makes of it

  /** A share whose slot is on no table is dropped. */
  lemma AShareIsNotFound(p: Pool, known: set<Volume>, sealed: set<Volume>, k: Key)
    requires k.Share? && Kind(k) && k in p.disk && p.disk[k] !in p.table && Owned(p.table, k.e) == {}
    ensures k !in Restored(p, known, sealed)
  {
    assert RecordOf(p.disk, k.e) == [p.disk[k]];
    assert Found(p, known, sealed, k.e) == [];
  }

  /** An extent of one leg whose entries on disk are all older comes back older, or not at all. */
  lemma OnlyOlderIsFound(p: Pool, known: set<Volume>, sealed: set<Volume>, e: Extent, gen: nat)
    requires Single(e) && Distinct(p.table, e)
    requires forall t <- p.table :: p.table[t].of == e ==> p.table[t].gen < gen
    ensures
      var live := Restored(p, known, sealed);
      Own(e) in live && live[Own(e)] in p.table && p.table[live[Own(e)]].of == e ==> p.table[live[Own(e)]].gen < gen
  {
  }

  // ---------------------------------------------------------------- a slot that is due

  lemma ADueShareIsDropped(q: Pool, s: Slot, known: set<Volume>, sealed: set<Volume>, k: Key)
    requires DueSlot(q, s) && k.Share? && Kind(k) && k in q.disk && q.disk[k] == s && Owned(q.table, k.e) == {}
    ensures Drops(q, FreeingThenCrash(s, known, sealed), k)
  {
    FreesThenCrashes(q, s, known, sealed, k);
    assert Owned(q.table - {s}, k.e) == {} by {
      assert forall u <- q.table - {s} :: u in q.table && (q.table - {s})[u] == q.table[u];
    }
    AShareIsNotFound(Freed(q, s), known, sealed, k);
  }

  lemma ADueNewestGoesBack(q: Pool, s: Slot, known: set<Volume>, sealed: set<Volume>, e: Extent)
    requires DueSlot(q, s) && Single(e) && Distinct(q.table, e) && s in q.table && q.table[s].of == e
    requires forall t <- q.table :: q.table[t].of == e ==> q.table[t].gen <= q.table[s].gen
    ensures GoesBack(q, FreeingThenCrash(s, known, sealed), e, q.table[s].gen)
  {
    FreesThenCrashes(q, s, known, sealed, Own(e));
    var f := Freed(q, s);
    assert forall t <- f.table :: t in q.table && f.table[t] == q.table[t] && t != s;
    OnlyOlderIsFound(f, known, sealed, e, q.table[s].gen);
  }

  /** The slot is given to another extent, and its entry reaches the disk. */
  function Taking(s: Slot, other: Extent, data: Data): seq<Step> {
    [Create(Own(other), s, data, 0), TableEntry(s)]
  }

  function Taken(p: Pool, s: Slot, other: Extent, data: Data): Pool {
    p.(mem := p.mem[s := Entry(other, 0, 1)], content := p.content[s := data], live := p.live[Own(other) := s],
       table := p.table[s := Entry(other, 0, 1)])
  }

  ghost predicate MayTake(p: Pool, other: Extent) {
    Single(other) && Own(other) !in p.live && Share(other) !in p.live && Share(other) !in p.disk
  }

  lemma Takes(p: Pool, s: Slot, other: Extent, data: Data)
    requires Formed(p) && s !in p.mem && s !in p.table && MayTake(p, other) && !Copying(p, s)
    ensures Legal(p, Taking(s, other, data)) && Formed(Taken(p, s, other, data))
    ensures Run(p, Taking(s, other, data)) == Taken(p, s, other, data)
  {
    assert !Copying(Do(p, Create(Own(other), s, data, 0)), s);
    Two(p, Create(Own(other), s, data, 0), TableEntry(s));
  }

  /** Another extent's entry does not change whether a record is taken. */
  lemma OthersEntries(p: Pool, q: Pool, s: Slot, x: Entry, e: Extent)
    requires q.table == p.table[s := x] && s !in p.table && x.of != e && q.disk == p.disk && TakesTheRecord(p, e)
    ensures TakesTheRecord(q, e)
  {
    assert Owned(q.table, e) == Owned(p.table, e);
    assert Top(q.table, e) == Top(p.table, e);
    RecordIsTakenIff(p.table, e, RecordOf(p.disk, e));
    RecordIsTakenIff(q.table, e, RecordOf(p.disk, e));
  }

  function Reusing(s: Slot, other: Extent, data: Data): (h: seq<Step>)
    ensures forall a <- h :: a in Freeing(s) || a in Taking(s, other, data)
  {
    Freeing(s) + Taking(s, other, data)
  }

  lemma Reuses(q: Pool, s: Slot, other: Extent, data: Data)
    requires DueSlot(q, s) && MayTake(q, other)
    ensures var h, r := Reusing(s, other, data), Taken(Freed(q, s), s, other, data);
      Legal(q, h) && Run(q, h) == r && Formed(r)
  {
    Frees(q, s);
    Takes(Freed(q, s), s, other, data);
    RunConcat(q, Freeing(s), Taking(s, other, data));
  }

  function ReusingThenCrash(s: Slot, other: Extent, data: Data, known: set<Volume>, sealed: set<Volume>): seq<Step> {
    Reusing(s, other, data) + [Crash(known, sealed)]
  }

  lemma ReusesThenCrashes(q: Pool, s: Slot, other: Extent, data: Data, known: set<Volume>, sealed: set<Volume>, k: Key)
    requires DueSlot(q, s) && MayTake(q, other) && k != Own(other)
    ensures EndsInACrash(q, ReusingThenCrash(s, other, data, known, sealed), k)
    ensures
      var r := Run(q, ReusingThenCrash(s, other, data, known, sealed));
      Restarted(Taken(Freed(q, s), s, other, data), known, sealed, r)
  {
    Reuses(q, s, other, data);
    ThenCrashes(q, Reusing(s, other, data), known, sealed, k);
  }

  lemma ADueLegReadsAnothers(q: Pool, s: Slot, known: set<Volume>, sealed: set<Volume>, e: Extent, leg: nat,
                             other: Extent, data: Data)
    requires DueSlot(q, s) && InRows(q.disk) && Leg(e, leg) in q.disk && q.disk[Leg(e, leg)] == s
    requires TakesTheRecord(Freed(q, s), e) && MayTake(q, other)
    ensures ReadsAnothers(q, ReusingThenCrash(s, other, data, known, sealed), Leg(e, leg), data)
  {
    var t := Taken(Freed(q, s), s, other, data);
    assert Kind(Leg(e, leg));
    ReusesThenCrashes(q, s, other, data, known, sealed, Leg(e, leg));
    OthersEntries(Freed(q, s), t, s, Entry(other, 0, 1), e);
    ALegOnRecord(t, known, sealed, e, leg);
  }

  /** A persist is written whole, and the power goes. */
  function Writing(w: Mover, part: set<Extent>): seq<Step> {
    [Sync(w), PersistEnd(w, Wrote(part, true))]
  }

  function Landed(q: Pool, w: Mover, part: set<Extent>): (r: Pool)
    requires Formed(q) && w in q.flights && Whole(q.flights[w], part)
    ensures Formed(r) && r.disk == q.flights[w].records && r.table == Flushed(q) && r.live == q.live
  {
    End(Synced(q, w), w, Wrote(part, true))
  }

  lemma Writes(q: Pool, w: Mover, part: set<Extent>)
    requires Formed(q) && w in q.flights && q.last <= q.flights[w].gen && Whole(q.flights[w], part)
    ensures Legal(q, Writing(w, part)) && Run(q, Writing(w, part)) == Landed(q, w, part)
  {
    AWholeWriteCovers(Synced(q, w), w, part);
    Two(q, Sync(w), PersistEnd(w, Wrote(part, true)));
  }

  function Landing(w: Mover, part: set<Extent>, known: set<Volume>, sealed: set<Volume>): seq<Step> {
    Writing(w, part) + [Crash(known, sealed)]
  }

  lemma Lands(q: Pool, w: Mover, part: set<Extent>, known: set<Volume>, sealed: set<Volume>, k: Key)
    requires Formed(q) && w in q.flights && q.last <= q.flights[w].gen && Whole(q.flights[w], part)
    ensures EndsInACrash(q, Landing(w, part, known, sealed), k)
    ensures Restarted(Landed(q, w, part), known, sealed, Run(q, Landing(w, part, known, sealed)))
  {
    Writes(q, w, part);
    ThenCrashes(q, Writing(w, part), known, sealed, k);
  }

  /** An older persist is told that newer records are on disk. */
  function ToldSo(w: Mover): seq<Step> {
    [Sync(w), PersistEnd(w, Skipped)]
  }

  lemma ToldAllIsWell(q: Pool, s: Slot, w: Mover)
    requires Formed(q) && w in q.flights && q.last > q.flights[w].gen && s in q.debt && q.debt[s] == Paying(w)
    requires s in q.mem && Unnamed(q.live, s) && !Copying(q, s)
    ensures Legal(q, ToldSo(w)) && DueSlot(Run(q, ToldSo(w)), s)
    ensures var r := Run(q, ToldSo(w)); r.live == q.live && r.table == Flushed(q) && r.disk == q.disk
  {
    Two(q, Sync(w), PersistEnd(w, Skipped));
  }

  // ---------------------------------------------------------------- what a failure loses

  lemma PayingFacts(p: Pool, s: Slot)
    requires Tables(p) && s in p.debt
    ensures Unnamed(p.live, s) && s in p.mem && !Copying(p, s)
  {
  }

  /** What a record that is not replaced says stays. */
  lemma StaysOnRecord(p: Pool, f: Flight, part: set<Extent>, e: Extent)
    requires InRows(p.disk) && InRows(f.records) && e !in part && !Whole(f, part)
    ensures forall k: Key :: k.e == e ==>
      (k in Merged(p.disk, f.records, part) <==> k in p.disk) &&
      (k in p.disk ==> Merged(p.disk, f.records, part)[k] == p.disk[k])
    ensures RecordOf(Merged(p.disk, f.records, part), e) == RecordOf(p.disk, e)
  {
    MergedInRows(p.disk, f.records, part);
    SameRecord(Merged(p.disk, f.records, part), p.disk, e);
  }

  lemma AShareOwnsNothing(p: Pool, t: Table, k: Key)
    requires Shares(p) && k.Share? && (k in p.disk || k in p.live)
    requires forall s <- t ::
      (s in p.mem && t[s].of == p.mem[s].of) || (s !in p.mem && s in p.table && t[s].of == p.table[s].of)
    ensures Owned(t, k.e) == {}
  {
    assert Unowned(p, k.e);
    forall s <- t
      ensures t[s].of != k.e
    {
      assert Has(p, s);
    }
  }

  lemma EndedIs(p: Pool, who: Mover, how: Ending, s: Slot)
    requires Formed(p) && Generations(p) && Enabled(p, PersistEnd(who, how)) && how.Wrote? && Older(p, who, s)
    ensures
      var q, w := End(p, who, how), p.debt[s].who;
      && Formed(q) && w in q.flights && q.last > q.flights[w].gen && s in q.debt && q.debt[s] == Paying(w)
      && q.mem == p.mem && q.live == p.live && q.moving == p.moving
      && q.disk == Merged(p.disk, p.flights[who].records, how.part)
  {
  }

  /** The older persist's slot is due as soon as it is told that all is well. */
  lemma ToldSoIsDue(p: Pool, who: Mover, how: Ending, s: Slot)
    requires Inv(p) && Enabled(p, PersistEnd(who, how)) && how.Wrote? && Older(p, who, s)
    ensures
      var q, w := End(p, who, how), p.debt[s].who;
      && Formed(q) && Legal(q, ToldSo(w)) && DueSlot(Run(q, ToldSo(w)), s)
      && Run(q, ToldSo(w)).table == Flushed(p) && Run(q, ToldSo(w)).disk ==
        Merged(p.disk, p.flights[who].records, how.part)
      && Run(q, ToldSo(w)).live == p.live
  {
    PayingFacts(p, s);
    EndedIs(p, who, how, s);
    assert Flushed(End(p, who, how)) == Flushed(p);
    ToldAllIsWell(End(p, who, how), s, p.debt[s].who);
  }

  /** Told so, it frees the slot. */
  function FalseSuccess(w: Mover, s: Slot, known: set<Volume>, sealed: set<Volume>): seq<Step> {
    ToldSo(w) + FreeingThenCrash(s, known, sealed)
  }

  lemma AFalseSuccessDrops(q: Pool, w: Mover, s: Slot, known: set<Volume>, sealed: set<Volume>, k: Key)
    requires Legal(q, ToldSo(w)) && DueSlot(Run(q, ToldSo(w)), s)
    requires
      var r := Run(q, ToldSo(w));
      k.Share? && Kind(k) && k in r.disk && r.disk[k] == s && Owned(r.table, k.e) == {}
    ensures Drops(q, FalseSuccess(w, s, known, sealed), k)
  {
    ADueShareIsDropped(Run(q, ToldSo(w)), s, known, sealed, k);
    ThenEndsInACrash(q, ToldSo(w), FreeingThenCrash(s, known, sealed), k);
  }

  /** A persist that fails part-way is marked written; an older one is then told that all is well, and
      frees a slot that a clone's record on disk still names: a restart drops the clone's extent. */
  lemma APartialFailureDropsAClone(p: Pool, who: Mover, part: set<Extent>, ok: bool, s: Slot, k: Key,
                                   known: set<Volume>, sealed: set<Volume>)
    requires Inv(p) && Enabled(p, PersistEnd(who, Wrote(part, ok))) && Older(p, who, s)
    requires k.Share? && k in p.disk && p.disk[k] == s && k.e !in part && !Whole(p.flights[who], part)
    ensures !Covers(p, who, part)
    ensures Drops(End(p, who, Wrote(part, ok)), FalseSuccess(p.debt[s].who, s, known, sealed), k)
  {
    ToldSoIsDue(p, who, Wrote(part, ok), s);
    StaysOnRecord(p, p.flights[who], part, k.e);
    AShareOwnsNothing(p, Flushed(p), k);
    AFalseSuccessDrops(End(p, who, Wrote(part, ok)), p.debt[s].who, s, known, sealed, k);
  }

  /** And the slot is given to another extent. */
  function FalseSuccessAndReuse(w: Mover, s: Slot, other: Extent, data: Data, known: set<Volume>, sealed: set<Volume>)
    : seq<Step>
  {
    ToldSo(w) + ReusingThenCrash(s, other, data, known, sealed)
  }

  lemma AFalseSuccessMixesUp(q: Pool, w: Mover, s: Slot, known: set<Volume>, sealed: set<Volume>, e: Extent, leg: nat,
                             other: Extent, data: Data)
    requires Legal(q, ToldSo(w)) && DueSlot(Run(q, ToldSo(w)), s)
    requires
      var r := Run(q, ToldSo(w));
      && InRows(r.disk) && Leg(e, leg) in r.disk && r.disk[Leg(e, leg)] == s && TakesTheRecord(Freed(r, s), e)
      && MayTake(r, other)
    ensures ReadsAnothers(q, FalseSuccessAndReuse(w, s, other, data, known, sealed), Leg(e, leg), data)
  {
    ADueLegReadsAnothers(Run(q, ToldSo(w)), s, known, sealed, e, leg, other, data);
    ThenEndsInACrash(q, ToldSo(w), ReusingThenCrash(s, other, data, known, sealed), Leg(e, leg));
  }

  /** So it is with a mirror's leg, where the tables without that slot still bear the record out: the
      slot is given to another extent, and the leg reads that one's bytes. */
  lemma APartialFailureMixesUpAMirror(p: Pool, who: Mover, part: set<Extent>, ok: bool, s: Slot, e: Extent, leg: nat,
                                      other: Extent, data: Data, known: set<Volume>, sealed: set<Volume>)
    requires Inv(p) && Enabled(p, PersistEnd(who, Wrote(part, ok))) && Older(p, who, s)
    requires Leg(e, leg) in p.disk && p.disk[Leg(e, leg)] == s && e !in part && !Whole(p.flights[who], part)
    requires RecordStands(Flushed(p) - {s}, p.disk, e) && MayTake(End(p, who, Wrote(part, ok)), other)
    ensures !Covers(p, who, part)
    ensures
      var h := FalseSuccessAndReuse(p.debt[s].who, s, other, data, known, sealed);
      ReadsAnothers(End(p, who, Wrote(part, ok)), h, Leg(e, leg), data)
  {
    ToldSoIsDue(p, who, Wrote(part, ok), s);
    StaysOnRecord(p, p.flights[who], part, e);
    MergedInRows(p.disk, p.flights[who].records, part);
    AFalseSuccessMixesUp(End(p, who, Wrote(part, ok)), p.debt[s].who, s, known, sealed, e, leg, other, data);
  }

  /** What stays of a record after a persist that failed, or wrote some of its records. */
  ghost predicate Stays(p: Pool, who: Mover, how: Ending, e: Extent)
    requires who in p.flights
  {
    how.Refused? || (how.Wrote? && e !in how.part && !Whole(p.flights[who], how.part))
  }

  lemma UncheckedIsDue(p: Pool, who: Mover, how: Ending, s: Slot)
    requires Inv(p) && Enabled(p, PersistEnd(who, how)) && s in p.debt && p.debt[s] == Paying(who)
    ensures DueSlot(EndUnchecked(p, who, how), s)
  {
    PayingFacts(p, s);
    assert EndUnchecked(p, who, how).debt[s] == Due(who);
  }

  /** A slot freed without a look at the answer, which a clone's record on disk still names. */
  lemma AnUncheckedFailureDropsAClone(p: Pool, who: Mover, how: Ending, s: Slot, k: Key,
                                      known: set<Volume>, sealed: set<Volume>)
    requires Inv(p) && Enabled(p, PersistEnd(who, how)) && s in p.debt && p.debt[s] == Paying(who)
    requires k.Share? && k in p.disk && p.disk[k] == s && Stays(p, who, how, k.e)
    ensures !SafeUnchecked(p, who, how)
    ensures Drops(EndUnchecked(p, who, how), FreeingThenCrash(s, known, sealed), k)
  {
    var q := EndUnchecked(p, who, how);
    UncheckedIsDue(p, who, how, s);
    if how.Wrote? {
      StaysOnRecord(p, p.flights[who], how.part, k.e);
    }
    AShareOwnsNothing(p, p.table, k);
    ADueShareIsDropped(q, s, known, sealed, k);
  }

  /** Or one that is the newest of its extent on disk, the flush of its copy having failed. */
  lemma AnUncheckedFailureGoesBack(p: Pool, who: Mover, s: Slot, known: set<Volume>, sealed: set<Volume>)
    requires Inv(p) && Enabled(p, PersistEnd(who, Refused)) && s in p.debt && p.debt[s] == Paying(who)
    requires s in p.table && Single(p.table[s].of) && !NewerOnDisk(p, s)
    ensures !SafeUnchecked(p, who, Refused)
    ensures
      var h := FreeingThenCrash(s, known, sealed);
      GoesBack(EndUnchecked(p, who, Refused), h, p.table[s].of, p.table[s].gen)
  {
    var q, e := EndUnchecked(p, who, Refused), p.table[s].of;
    UncheckedIsDue(p, who, Refused, s);
    TablesApart(p, e);
    ADueNewestGoesBack(q, s, known, sealed, e);
    assert !Free(p, who, Refused, s);
  }

  /** Or one a mirror's leg is in, whose record the tables still bear out. */
  lemma AnUncheckedFailureMixesUpAMirror(p: Pool, who: Mover, how: Ending, s: Slot, e: Extent, leg: nat,
                                         other: Extent, data: Data, known: set<Volume>, sealed: set<Volume>)
    requires Inv(p) && Enabled(p, PersistEnd(who, how)) && s in p.debt && p.debt[s] == Paying(who)
    requires Leg(e, leg) in p.disk && p.disk[Leg(e, leg)] == s && Stays(p, who, how, e)
    requires RecordStands(p.table - {s}, p.disk, e) && MayTake(End(p, who, how), other)
    ensures !SafeUnchecked(p, who, how)
    ensures ReadsAnothers(EndUnchecked(p, who, how), ReusingThenCrash(s, other, data, known, sealed), Leg(e, leg), data)
  {
    var q := EndUnchecked(p, who, how);
    UncheckedIsDue(p, who, how, s);
    if how.Wrote? {
      StaysOnRecord(p, p.flights[who], how.part, e);
      MergedInRows(p.disk, p.flights[who].records, how.part);
    }
    ADueLegReadsAnothers(q, s, known, sealed, e, leg, other, data);
  }

  lemma Releases(q: Pool, s: Slot)
    requires DueSlot(q, s)
    ensures Legal(q, [Release(s)]) && Run(q, [Release(s)]) == Released(q, s) && Formed(Released(q, s))
  {
    One(q, Release(s));
  }

  /** A record under way is written once the slot it names is freed. */
  lemma ADueShareUnderWayIsDropped(q: Pool, s: Slot, w: Mover, part: set<Extent>, known: set<Volume>,
        sealed: set<Volume>,
                                   k: Key)
    requires DueSlot(q, s) && w in q.flights && q.last <= q.flights[w].gen && Whole(q.flights[w], part)
    requires k.Share? && Kind(k) && k in q.flights[w].records && q.flights[w].records[k] == s
    requires Owned(Flushed(Released(q, s)), k.e) == {}
    ensures Drops(q, [Release(s)] + Landing(w, part, known, sealed), k)
  {
    var a := Released(q, s);
    Releases(q, s);
    Lands(a, w, part, known, sealed, k);
    AShareIsNotFound(Landed(a, w, part), known, sealed, k);
    ThenEndsInACrash(q, [Release(s)], Landing(w, part, known, sealed), k);
  }

  lemma RefusedIs(p: Pool, who: Mover)
    requires Formed(p) && who in p.flights
    ensures
      var q := EndUnchecked(p, who, Refused);
      q.mem == p.mem && q.last == p.last && forall w <- p.flights :: w != who ==>
        w in q.flights && q.flights[w] == p.flights[w]
  {
  }

  lemma NamedUnderWay(p: Pool, who: Mover, s: Slot, w: Mover, k: Key)
    requires who in p.flights && s in p.debt && p.debt[s] == Paying(who) && w != who && Pending(p, w)
    requires !k.Own? && k in p.flights[w].records && p.flights[w].records[k] == s
    ensures !SafeUnchecked(p, who, Refused)
  {
    assert !Free(p, who, Refused, s);
  }

  lemma FewerOwned(p: Pool, q: Pool, s: Slot, k: Key)
    requires Shares(p) && k.Share? && k in p.live && q.mem == p.mem
    ensures Owned(Flushed(Released(q, s)), k.e) == {}
  {
    AShareOwnsNothing(p, Flushed(Released(q, s)), k);
  }

  function Extents(m: map<Key, Slot>): set<Extent> {
    set k | k in m :: k.e
  }

  /** Or one the records of another persist under way name for a clone: they are written, and a
      restart drops what they say of it. */
  lemma AnUncheckedFailureDropsARecordUnderWay(p: Pool, who: Mover, s: Slot, w: Mover, k: Key,
                                               known: set<Volume>, sealed: set<Volume>)
    requires Inv(p) && Enabled(p, PersistEnd(who, Refused)) && s in p.debt && p.debt[s] == Paying(who)
    requires w != who && Pending(p, w) && k.Share? && k in p.flights[w].records && p.flights[w].records[k] == s
    ensures !SafeUnchecked(p, who, Refused)
    ensures
      var h := [Release(s)] + Landing(w, Extents(p.flights[w].records), known, sealed);
      Drops(EndUnchecked(p, who, Refused), h, k)
  {
    var q := EndUnchecked(p, who, Refused);
    RefusedIs(p, who);
    UncheckedIsDue(p, who, Refused, s);
    FewerOwned(p, q, s, k);
    ADueShareUnderWayIsDropped(q, s, w, Extents(p.flights[w].records), known, sealed, k);
    NamedUnderWay(p, who, s, w, k);
  }
}
